/**
 The ROM filesystem image (tools/mkromfs.py): a directory tree serialized depth first,
 with absolute addresses. A directory is its entries, 16 bytes each, followed by the names
 and the contents of its children.
 */
module RomImage {
  import opened Sequences

  type Byte = x: int | 0 <= x < 256
  type Bytes = seq<Byte>

  datatype Node = File(name: Bytes, data: Bytes) | Folder(name: Bytes, children: seq<Node>)

  const WordLimit: int := 0x1_0000_0000

  function Zeros(n: nat): (z: Bytes)
    ensures |z| == n && forall i | 0 <= i < n :: z[i] == 0
  {
    seq(n, _ => 0)
  }

  /** The size of a name of `k` bytes with its one to four zeros: the next multiple of four. */
  function NameSize(k: nat): (r: nat)
    ensures k < r <= k + 4
  {
    if k < 4 then 4 else 4 + NameSize(k - 4)
  }

  /** The size of contents of `k` bytes, filled up to a multiple of four. */
  function PaddedSize(k: nat): (r: nat)
    ensures k <= r < k + 4
  {
    if k == 0 then 0 else if k <= 4 then 4 else 4 + PaddedSize(k - 4)
  }

  /** Both are what the paddings by remainders of four give. */
  lemma {:induction false} Remainders(k: nat)
    ensures NameSize(k) == k + (4 - k % 4) && NameSize(k) % 4 == 0
    ensures PaddedSize(k) == (if k % 4 != 0 then k + (4 - k % 4) else k) && PaddedSize(k) % 4 == 0
  {
    if k > 4 {
      Remainders(k - 4);
    }
  }

  /** bin_name. */
  function BinName(name: Bytes): (r: Bytes)
    ensures |r| == NameSize(|name|) && r[..|name|] == name && r[|name|] == 0
  {
    name + Zeros(NameSize(|name|) - |name|)
  }

  function Padded(data: Bytes): (r: Bytes)
    ensures |r| == PaddedSize(|data|) && data <= r
  {
    data + Zeros(PaddedSize(|data|) - |data|)
  }

  /** struct.pack("I"), little-endian. */
  function Word(n: nat): (r: Bytes)
    requires n < WordLimit
    ensures |r| == 4
  {
    [n % 256, n / 256 % 256, n / 256 / 256 % 256, n / 256 / 256 / 256]
  }

  function ReadWord(b: Bytes): (n: nat)
    requires |b| == 4
  {
    b[0] as int + 256 * (b[1] as int) + 0x1_0000 * (b[2] as int) + 0x100_0000 * (b[3] as int)
  }

  lemma WordReads(n: nat)
    requires n < WordLimit
    ensures ReadWord(Word(n)) == n
  {
    var a, b := n / 256, n / 256 / 256;
    assert n == n % 256 + 256 * a && a == a % 256 + 256 * b && b == b % 256 + 256 * (b / 256);
  }

  function EntrySize(n: Node): nat {
    if n.File? then |n.data| else |n.children|
  }

  /** The size of what bin_data makes of a node: it does not depend on the address. */
  function Size(n: Node): nat
    decreases n
  {
    if n.File? then |n.data| else 16 * |n.children| + PayloadSize(n, |n.children|)
  }

  /** The names and contents of the first `i` children. */
  function PayloadSize(n: Node, i: nat): nat
    requires n.Folder? && i <= |n.children|
    decreases n, i
  {
    if i == 0 then 0
    else PayloadSize(n, i - 1) + NameSize(|n.children[i - 1].name|) + PaddedSize(Size(n.children[i - 1]))
  }

  /** Where the name and the contents of child `i` are, in a directory at address `base`. */
  function NameAddr(n: Node, i: nat, base: nat): nat
    requires n.Folder? && i < |n.children|
  {
    base + 16 * |n.children| + PayloadSize(n, i)
  }

  function DataAddr(n: Node, i: nat, base: nat): nat
    requires n.Folder? && i < |n.children|
  {
    NameAddr(n, i, base) + NameSize(|n.children[i].name|)
  }

  /** A directory entry, if its fields fit in 32 bits. */
  function Dirent(folder: bool, name: nat, data: nat, size: nat): (r: Option<Bytes>)
    ensures r.Some? ==> |r.value| == 16
  {
    if name < WordLimit && data < WordLimit && size < WordLimit then
      Some(Word(if folder then 1 else 0) + Word(name) + Word(data) + Word(size))
    else None
  }

  /** bin_data of a node at address `base`; None if an address or a size does not fit. */
  function BinData(n: Node, base: nat): (r: Option<Bytes>)
    ensures r.Some? ==> |r.value| == Size(n)
    decreases n
  {
    if n.File? then Some(n.data)
    else
      var d := Dirents(n, |n.children|, base);
      var p := Payload(n, |n.children|, base);
      if d.None? || p.None? then None else Some(d.value + p.value)
  }

  function Dirents(n: Node, i: nat, base: nat): (r: Option<Bytes>)
    requires n.Folder? && i <= |n.children|
    ensures r.Some? ==> |r.value| == 16 * i
    decreases n, i
  {
    if i == 0 then Some([])
    else
      var c := n.children[i - 1];
      var d := Dirents(n, i - 1, base);
      var e := Dirent(c.Folder?, NameAddr(n, i - 1, base), DataAddr(n, i - 1, base), EntrySize(c));
      if d.None? || e.None? then None else Some(d.value + e.value)
  }

  function Payload(n: Node, i: nat, base: nat): (r: Option<Bytes>)
    requires n.Folder? && i <= |n.children|
    ensures r.Some? ==> |r.value| == PayloadSize(n, i)
    decreases n, i
  {
    if i == 0 then Some([])
    else
      var c := n.children[i - 1];
      var p := Payload(n, i - 1, base);
      var data := BinData(c, DataAddr(n, i - 1, base));
      if p.None? || data.None? then None else Some(p.value + BinName(c.name) + Padded(data.value))
  }

  /** get_bin_data: the entry of the root directory, its name, and its contents. */
  function Image(root: Node, base: nat): (r: Option<Bytes>)
    requires root.Folder?
  {
    var e := Dirent(true, base + 16, base + 20, |root.children|);
    var data := BinData(root, base + 20);
    if e.None? || data.None? then None else Some(e.value + BinName(RootName) + data.value)
  }

  /* Reading the image: what a filesystem finds that follows the pointers. */

  /** The bytes `b` are in memory at address `a`; the image starts at `base`. */
  ghost predicate At(img: Bytes, base: nat, a: nat, b: Bytes) {
    base <= a && a - base + |b| <= |img| && img[a - base..a - base + |b|] == b
  }

  lemma AtSplit(img: Bytes, base: nat, a: nat, x: Bytes, y: Bytes)
    requires At(img, base, a, x + y)
    ensures At(img, base, a, x) && At(img, base, a + |x|, y)
  {
    var b := img[a - base..a - base + |x + y|];
    assert b[..|x|] == x && b[|x|..] == y;
  }

  ghost function WordAt(img: Bytes, base: nat, a: nat): nat
    requires base <= a && a - base + 4 <= |img|
  {
    ReadWord(img[a - base..a - base + 4])
  }

  /** A NUL-terminated name. */
  ghost predicate NameAt(img: Bytes, base: nat, a: nat, name: Bytes) {
    At(img, base, a, name + [0]) && 0 !in name
  }

  /** The entry at address `a` describes `n`: type, name, size and contents, and so on for its children. */
  ghost predicate Describes(img: Bytes, base: nat, a: nat, n: Node)
    decreases n, 1
  {
    && base <= a && a - base + 16 <= |img|
    && WordAt(img, base, a) == (if n.Folder? then 1 else 0)
    && NameAt(img, base, WordAt(img, base, a + 4), n.name)
    && WordAt(img, base, a + 12) == EntrySize(n)
    && if n.File? then At(img, base, WordAt(img, base, a + 8), n.data)
       else ChildrenDescribed(img, base, WordAt(img, base, a + 8), n)
  }

  /** The entries from address `a` on describe the children of `n`. */
  ghost predicate ChildrenDescribed(img: Bytes, base: nat, a: nat, n: Node)
    requires n.Folder?
    decreases n, 0
  {
    forall i | 0 <= i < |n.children| :: Describes(img, base, a + 16 * i, n.children[i])
  }

  /** All names are free of NUL, as file names are. */
  ghost predicate Named(n: Node)
    decreases n
  {
    0 !in n.name && (n.Folder? ==> forall i | 0 <= i < |n.children| :: Named(n.children[i]))
  }

  lemma DirentReads(img: Bytes, base: nat, a: nat, folder: bool, name: nat, data: nat, size: nat)
    requires Dirent(folder, name, data, size).Some? && At(img, base, a, Dirent(folder, name, data, size).value)
    ensures base <= a && a - base + 16 <= |img|
    ensures WordAt(img, base, a) == (if folder then 1 else 0) && WordAt(img, base, a + 4) == name
    ensures WordAt(img, base, a + 8) == data && WordAt(img, base, a + 12) == size
  {
    var t, n, d, s := Word(if folder then 1 else 0), Word(name), Word(data), Word(size);
    AtSplit(img, base, a, t + n + d, s);
    AtSplit(img, base, a, t + n, d);
    AtSplit(img, base, a, t, n);
    WordReads(if folder then 1 else 0);
    WordReads(name);
    WordReads(data);
    WordReads(size);
  }

  lemma NameReads(img: Bytes, base: nat, a: nat, name: Bytes)
    requires At(img, base, a, BinName(name)) && 0 !in name
    ensures NameAt(img, base, a, name)
  {
    var b := BinName(name);
    assert b == (name + [0]) + b[|name| + 1..];
    AtSplit(img, base, a, name + [0], b[|name| + 1..]);
  }

  /** The first `i` entries of the directory at `a`. */
  ghost predicate DirentsHeld(img: Bytes, base: nat, a: nat, n: Node, i: nat) {
    n.Folder? && i <= |n.children| && Dirents(n, i, a).Some? && At(img, base, a, Dirents(n, i, a).value)
  }

  /** The words of entry `i`, as read. */
  ghost predicate EntryRead(img: Bytes, base: nat, a: nat, n: Node, i: nat)
    requires n.Folder? && i < |n.children|
  {
    var e := a + 16 * i;
    && base <= e && e - base + 16 <= |img|
    && WordAt(img, base, e) == (if n.children[i].Folder? then 1 else 0)
    && WordAt(img, base, e + 4) == NameAddr(n, i, a)
    && WordAt(img, base, e + 8) == DataAddr(n, i, a)
    && WordAt(img, base, e + 12) == EntrySize(n.children[i])
  }

  lemma DirentLast(img: Bytes, base: nat, a: nat, n: Node, i: nat)
    requires DirentsHeld(img, base, a, n, i + 1)
    ensures DirentsHeld(img, base, a, n, i) && EntryRead(img, base, a, n, i)
  {
    DirentsEnd(img, base, a, n, i);
    var c := n.children[i];
    DirentReads(img, base, a + 16 * i, c.Folder?, NameAddr(n, i, a), DataAddr(n, i, a), EntrySize(c));
  }

  /** The last entry is behind all others. */
  lemma DirentsEnd(img: Bytes, base: nat, a: nat, n: Node, i: nat)
    requires DirentsHeld(img, base, a, n, i + 1)
    ensures DirentsHeld(img, base, a, n, i)
    ensures var c := n.children[i];
      var e := Dirent(c.Folder?, NameAddr(n, i, a), DataAddr(n, i, a), EntrySize(c));
      e.Some? && At(img, base, a + 16 * i, e.value)
  {
    var c := n.children[i];
    var e := Dirent(c.Folder?, NameAddr(n, i, a), DataAddr(n, i, a), EntrySize(c));
    AtSplit(img, base, a, Dirents(n, i, a).value, e.value);
  }

  /** Entry `i` of a directory is where it should be. */
  lemma {:induction false} DirentAt(img: Bytes, base: nat, a: nat, n: Node, j: nat, i: nat)
    requires DirentsHeld(img, base, a, n, j) && i < j
    ensures EntryRead(img, base, a, n, i)
    decreases j
  {
    DirentLast(img, base, a, n, j - 1);
    if i < j - 1 {
      DirentAt(img, base, a, n, j - 1, i);
    }
  }

  /** The payload of the first `i` children, at its place in a directory at `a`. */
  ghost predicate PayloadHeld(img: Bytes, base: nat, a: nat, n: Node, i: nat) {
    && n.Folder? && i <= |n.children| && Payload(n, i, a).Some?
    && At(img, base, a + 16 * |n.children|, Payload(n, i, a).value)
  }

  /** The name and the contents of child `i`, at their places. */
  ghost predicate ChildHeld(img: Bytes, base: nat, a: nat, n: Node, i: nat) {
    && n.Folder? && i < |n.children| && BinData(n.children[i], DataAddr(n, i, a)).Some?
    && At(img, base, NameAddr(n, i, a), BinName(n.children[i].name))
    && At(img, base, DataAddr(n, i, a), BinData(n.children[i], DataAddr(n, i, a)).value)
  }

  lemma ThreeParts(img: Bytes, base: nat, a: nat, p: Bytes, name: Bytes, data: Bytes)
    requires At(img, base, a, p + name + Padded(data))
    ensures At(img, base, a, p) && At(img, base, a + |p|, name) && At(img, base, a + |p| + |name|, data)
  {
    AtSplit(img, base, a, p + name, Padded(data));
    AtSplit(img, base, a, p, name);
    var rest := Padded(data)[|data|..];
    assert Padded(data) == data + rest;
    AtSplit(img, base, a + |p| + |name|, data, rest);
  }

  lemma PayloadLast(img: Bytes, base: nat, a: nat, n: Node, i: nat)
    requires PayloadHeld(img, base, a, n, i + 1)
    ensures PayloadHeld(img, base, a, n, i) && ChildHeld(img, base, a, n, i)
  {
    var c := n.children[i];
    var p, data := Payload(n, i, a).value, BinData(c, DataAddr(n, i, a)).value;
    ThreeParts(img, base, a + 16 * |n.children|, p, BinName(c.name), data);
  }

  /** So are the name and the contents of child `i`. */
  lemma {:induction false} PayloadAt(img: Bytes, base: nat, a: nat, n: Node, j: nat, i: nat)
    requires PayloadHeld(img, base, a, n, j) && i < j
    ensures ChildHeld(img, base, a, n, i)
    decreases j
  {
    PayloadLast(img, base, a, n, j - 1);
    if i < j - 1 {
      PayloadAt(img, base, a, n, j - 1, i);
    }
  }

  /** The image holds directory `n` at `a`. */
  ghost predicate FolderHeld(img: Bytes, base: nat, a: nat, n: Node) {
    n.Folder? && BinData(n, a).Some? && At(img, base, a, BinData(n, a).value)
  }

  /** The directory at `a`, taken apart. */
  lemma FolderParts(img: Bytes, base: nat, a: nat, n: Node)
    requires FolderHeld(img, base, a, n)
    ensures DirentsHeld(img, base, a, n, |n.children|) && PayloadHeld(img, base, a, n, |n.children|)
  {
    var k := |n.children|;
    AtSplit(img, base, a, Dirents(n, k, a).value, Payload(n, k, a).value);
  }

  /** Whatever directory the image holds at `a`, its entries describe its children, all the way down. */
  lemma {:induction false} FolderDescribed(img: Bytes, base: nat, a: nat, n: Node)
    requires FolderHeld(img, base, a, n) && Named(n)
    ensures ChildrenDescribed(img, base, a, n)
    decreases n
  {
    FolderParts(img, base, a, n);
    forall i | 0 <= i < |n.children| ensures Describes(img, base, a + 16 * i, n.children[i]) {
      DirentAt(img, base, a, n, |n.children|, i);
      PayloadAt(img, base, a, n, |n.children|, i);
      var c := n.children[i];
      assert Named(c);
      NameReads(img, base, NameAddr(n, i, a), c.name);
      if c.Folder? {
        FolderDescribed(img, base, DataAddr(n, i, a), c);
      }
    }
  }

  const RootName: Bytes := ['/' as int]

  /** Following the pointers from the first byte of the image finds the whole tree. */
  lemma ImageDescribed(root: Node, base: nat)
    requires root.Folder? && Named(root) && Image(root, base).Some?
    ensures Describes(Image(root, base).value, base, base, Folder(RootName, root.children))
  {
    var img := Image(root, base).value;
    RootParts(root, base, img);
    NameReads(img, base, base + 16, RootName);
    FolderDescribed(img, base, base + 20, root);
    RootDescribed(img, base, root);
  }

  lemma RootDescribed(img: Bytes, base: nat, root: Node)
    requires root.Folder? && |img| >= 20 && NameAt(img, base, base + 16, RootName)
      && ChildrenDescribed(img, base, base + 20, root)
    requires WordAt(img, base, base) == 1 && WordAt(img, base, base + 4) == base + 16
    requires WordAt(img, base, base + 8) == base + 20 && WordAt(img, base, base + 12) == |root.children|
    ensures Describes(img, base, base, Folder(RootName, root.children))
  {
    assert ChildrenDescribed(img, base, base + 20, Folder(RootName, root.children));
  }

  lemma RootParts(root: Node, base: nat, img: Bytes)
    requires root.Folder? && Image(root, base) == Some(img)
    ensures At(img, base, base + 16, BinName(RootName)) && FolderHeld(img, base, base + 20, root) && |img| >= 20
    ensures WordAt(img, base, base) == 1 && WordAt(img, base, base + 4) == base + 16
    ensures WordAt(img, base, base + 8) == base + 20 && WordAt(img, base, base + 12) == |root.children|
  {
    var e, name, data := Dirent(true, base + 16, base + 20, |root.children|).value, BinName(RootName),
        BinData(root, base + 20).value;
    assert At(img, base, base, e + name + data);
    AtSplit(img, base, base, e + name, data);
    AtSplit(img, base, base, e, name);
    DirentReads(img, base, base, true, base + 16, base + 20, |root.children|);
  }

  lemma NoNulBefore(img: Bytes, base: nat, a: nat, x: Bytes)
    requires NameAt(img, base, a, x)
    ensures forall j | a - base <= j < a - base + |x| :: img[j] != 0
    ensures a - base + |x| < |img| && img[a - base + |x|] == 0
  {
    var i := a - base;
    var b := img[i..i + |x + [0]|];
    forall j | i <= j < i + |x| ensures img[j] != 0 {
      assert img[j] == b[j - i] == x[j - i];
    }
    assert img[i + |x|] == b[|x|];
  }

  lemma NameUnique(img: Bytes, base: nat, a: nat, x: Bytes, y: Bytes)
    requires NameAt(img, base, a, x) && NameAt(img, base, a, y)
    ensures x == y
  {
    NoNulBefore(img, base, a, x);
    NoNulBefore(img, base, a, y);
    var i := a - base;
    assert x == img[i..i + |x + [0]|][..|x|] && y == img[i..i + |y + [0]|][..|y|];
  }

  /** The image determines the tree: nothing else is described at the same place. */
  lemma {:induction false} Recovers(img: Bytes, base: nat, a: nat, m: Node, n: Node)
    requires Describes(img, base, a, m) && Describes(img, base, a, n)
    ensures m == n
    decreases m, 1
  {
    NameUnique(img, base, WordAt(img, base, a + 4), m.name, n.name);
    if m.Folder? {
      ChildrenRecovered(img, base, WordAt(img, base, a + 8), m, n);
    }
  }

  lemma {:induction false} ChildrenRecovered(img: Bytes, base: nat, a: nat, m: Node, n: Node)
    requires m.Folder? && n.Folder? && |m.children| == |n.children|
    requires ChildrenDescribed(img, base, a, m) && ChildrenDescribed(img, base, a, n)
    ensures m.children == n.children
    decreases m, 0
  {
    forall i | 0 <= i < |m.children| ensures m.children[i] == n.children[i] {
      assert Describes(img, base, a + 16 * i, m.children[i]) && Describes(img, base, a + 16 * i, n.children[i]);
      Recovers(img, base, a + 16 * i, m.children[i], n.children[i]);
    }
  }

  /** Two trees with the same image are the same tree. */
  lemma ImageInjective(m: Node, n: Node, base: nat)
    requires m.Folder? && n.Folder? && Named(m) && Named(n)
    requires Image(m, base).Some? && Image(m, base) == Image(n, base)
    ensures m.children == n.children
  {
    ImageDescribed(m, base);
    ImageDescribed(n, base);
    Recovers(Image(m, base).value, base, base, Folder(RootName, m.children), Folder(RootName, n.children));
  }

  /** The length of the image does not depend on where it will be loaded. */
  lemma ImageLength(root: Node, base: nat)
    requires root.Folder? && Image(root, base).Some?
    ensures |Image(root, base).value| == 20 + Size(root)
  {
  }

  lemma SumOfFours(a: nat, b: nat, c: nat)
    requires a % 4 == 0 && b % 4 == 0 && c % 4 == 0
    ensures (a + b + c) % 4 == 0
  {
  }

  lemma {:induction false} PayloadAligned(n: Node, i: nat)
    requires n.Folder? && i <= |n.children|
    ensures PayloadSize(n, i) % 4 == 0
    decreases i
  {
    if i > 0 {
      PayloadAligned(n, i - 1);
      Remainders(|n.children[i - 1].name|);
      Remainders(Size(n.children[i - 1]));
      SumOfFours(PayloadSize(n, i - 1), NameSize(|n.children[i - 1].name|), PaddedSize(Size(n.children[i - 1])));
    }
  }

  /** Loaded at a multiple of four, everything an entry points to is at a multiple of four. */
  lemma AddressesAligned(n: Node, i: nat, base: nat)
    requires n.Folder? && i < |n.children| && base % 4 == 0
    ensures NameAddr(n, i, base) % 4 == 0 && DataAddr(n, i, base) % 4 == 0
  {
    PayloadAligned(n, i);
    Remainders(|n.children[i].name|);
    SumOfFours(base, 16 * |n.children|, PayloadSize(n, i));
    SumOfFours(NameAddr(n, i, base), NameSize(|n.children[i].name|), 0);
  }

  /** In the whole tree below `n`, loaded at `base`, every name and every child is at a multiple of four. */
  ghost predicate AllAligned(n: Node, base: nat)
    decreases n
  {
    n.Folder? ==> forall i | 0 <= i < |n.children| ::
      && NameAddr(n, i, base) % 4 == 0 && DataAddr(n, i, base) % 4 == 0
      && AllAligned(n.children[i], DataAddr(n, i, base))
  }

  lemma {:induction false} TreeAligned(n: Node, base: nat)
    requires base % 4 == 0
    ensures AllAligned(n, base)
    decreases n
  {
    if n.Folder? {
      forall i | 0 <= i < |n.children|
        ensures NameAddr(n, i, base) % 4 == 0 && DataAddr(n, i, base) % 4 == 0
        ensures AllAligned(n.children[i], DataAddr(n, i, base))
      {
        AddressesAligned(n, i, base);
        TreeAligned(n.children[i], DataAddr(n, i, base));
      }
    }
  }

  /** An entry or a child that cannot be built spoils the whole directory. */
  lemma {:induction false} NoneStays(n: Node, i: nat, base: nat)
    requires n.Folder? && i <= |n.children| && (Dirents(n, i, base).None? || Payload(n, i, base).None?)
    ensures BinData(n, base).None?
    decreases |n.children| - i
  {
    if i < |n.children| {
      NoneStays(n, i + 1, base);
    }
  }

  /** The entries and the payload of the first `i` children, and the address of what comes next. */
  ghost predicate Built(n: Node, i: nat, base: nat, dirents: Bytes, payload: Bytes, addr: nat) {
    && n.Folder? && i <= |n.children|
    && Dirents(n, i, base) == Some(dirents) && Payload(n, i, base) == Some(payload)
    && addr == base + 16 * |n.children| + PayloadSize(n, i)
  }

  /** One child more. */
  lemma ChildAdded(n: Node, i: nat, base: nat, dirents: Bytes, payload: Bytes, addr: nat, data: Bytes, entry: Bytes)
    requires Built(n, i, base, dirents, payload, addr) && i < |n.children|
    requires BinData(n.children[i], DataAddr(n, i, base)) == Some(data)
    requires Dirent(n.children[i].Folder?, NameAddr(n, i, base), DataAddr(n, i, base), EntrySize(n.children[i])) ==
      Some(entry)
    ensures Built(n, i + 1, base, dirents + entry, payload + BinName(n.children[i].name) + Padded(data),
                  addr + NameSize(|n.children[i].name|) + |Padded(data)|)
  {
  }

  lemma ChildFails(n: Node, i: nat, base: nat)
    requires n.Folder? && i < |n.children|
    requires BinData(n.children[i], DataAddr(n, i, base)).None?
          || Dirent(n.children[i].Folder?, NameAddr(n, i, base), DataAddr(n, i, base), EntrySize(n.children[i])).None?
    ensures BinData(n, base).None?
  {
    NoneStays(n, i + 1, base);
  }

  /** Folder.bin_data: one pass over the children. */
  method FolderData(n: Node, base: nat) returns (r: Option<Bytes>)
    requires n.Folder?
    ensures r == BinData(n, base)
    decreases n, 1
  {
    var dirents: Bytes, payload: Bytes := [], [];
    var addr: nat := base + 16 * |n.children|;
    for i := 0 to |n.children|
      invariant Built(n, i, base, dirents, payload, addr)
    {
      var ok;
      ok, dirents, payload, addr := AddChild(n, i, base, dirents, payload, addr);
      if !ok {
        return None;
      }
    }
    r := Some(dirents + payload);
  }

  /** One turn of that loop. */
  method AddChild(n: Node, i: nat, ghost base: nat, dirents: Bytes, payload: Bytes, addr: nat)
    returns (ok: bool, dirents': Bytes, payload': Bytes, addr': nat)
    requires Built(n, i, base, dirents, payload, addr) && i < |n.children|
    ensures if ok then Built(n, i + 1, base, dirents', payload', addr') else BinData(n, base).None?
    decreases n, 0
  {
    var c := n.children[i];
    var name := BinName(c.name);
    var dataAddr := addr + |name|;
    var data := NodeData(c, dataAddr);
    var entry := Dirent(c.Folder?, addr, dataAddr, EntrySize(c));
    if data.None? || entry.None? {
      ChildFails(n, i, base);
      return false, dirents, payload, addr;
    }
    ChildAdded(n, i, base, dirents, payload, addr, data.value, entry.value);
    var padded := Padded(data.value);
    return true, dirents + entry.value, payload + name + padded, dataAddr + |padded|;
  }

  method NodeData(n: Node, base: nat) returns (r: Option<Bytes>)
    ensures r == BinData(n, base)
    decreases n, 2
  {
    if n.File? {
      r := Some(n.data);
    } else {
      r := FolderData(n, base);
    }
  }

  /** An image that ends below the limit can always be built. */
  lemma {:induction false} SmallEnough(n: Node, base: nat)
    requires base + Size(n) < WordLimit
    ensures BinData(n, base).Some?
    decreases n, 1
  {
    if n.Folder? {
      PartsSmallEnough(n, |n.children|, base);
    }
  }

  lemma {:induction false} PartsSmallEnough(n: Node, i: nat, base: nat)
    requires n.Folder? && i <= |n.children| && base + 16 * |n.children| + PayloadSize(n, i) < WordLimit
    ensures Dirents(n, i, base).Some? && Payload(n, i, base).Some?
    decreases n, 0, i
  {
    if i > 0 {
      PartsSmallEnough(n, i - 1, base);
      SmallEnough(n.children[i - 1], DataAddr(n, i - 1, base));
      EntryBelow(n.children[i - 1]);
    }
  }

  lemma {:induction false} EntryBelow(n: Node)
    ensures EntrySize(n) <= Size(n)
  {
  }
}
