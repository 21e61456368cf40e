/** The bytes of a path tree and of a package: what the fields are read from, and that what is assembled parses. */
module PackageLaws {
  import opened Bytes
  import opened RadixIndex
  import opened PackageIndex

  // ---------------------------------------------------------------- fields

  /** The number held by four bytes, least significant first. */
  function Word(data: seq<Byte>, at: nat): nat
    requires at + 4 <= |data|
  {
    Low(data, at) + 0x100_0000 * (data[at + 3] as int)
  }

  /** The number held by three bytes. */
  function Low(data: seq<Byte>, at: nat): (n: nat)
    requires at + 3 <= |data|
    ensures n < 0x100_0000
  {
    (data[at] as int) + 256 * (data[at + 1] as int) + 0x1_0000 * (data[at + 2] as int)
  }

  lemma WordIs(data: seq<Byte>, at: nat)
    requires at + 4 <= |data|
    ensures U32(data, at) == Word(data, at)
  {
    var b := data[at..at + 4];
    assert b[1..][1..] == b[2..] && b[2..][1..] == b[3..] && b[3..][1..] == b[4..];
    assert GetLe(b) == b[0] + 256 * GetLe(b[1..]);
    assert GetLe(b[1..]) == b[1] + 256 * GetLe(b[2..]);
    assert GetLe(b[2..]) == b[2] + 256 * GetLe(b[3..]);
    assert GetLe(b[3..]) == b[3] + 256 * GetLe(b[4..]);
  }

  /** A target is a leaf exactly when its last byte is 255; its first three bytes then number the entry. */
  lemma LeafBytes(data: seq<Byte>, at: nat)
    requires at + 4 <= |data|
    ensures IsLeaf(U32(data, at)) <==> data[at + 3] == 255
    ensures LeafIndex(U32(data, at)) == Low(data, at)
  {
    WordIs(data, at);
    TopByte(Low(data, at), data[at + 3]);
  }

  lemma TopByte(low: nat, top: nat)
    requires low < 0x100_0000
    ensures (low + 0x100_0000 * top) / 0x100_0000 == top && (low + 0x100_0000 * top) % 0x100_0000 == low
  {
  }

  /** A node is its record count and that many records of twelve bytes, all inside the tree. */
  lemma NodeBytes(t: Tree, node: nat)
    ensures t.Sound(node) <==>
      node + 4 <= |t.blob| && Word(t.blob, node) <= t.entries && node + 4 + 12 * Word(t.blob, node) <= |t.blob|
    ensures t.Sound(node) ==> t.Count(node) == Word(t.blob, node)
  {
    if node + 4 <= |t.blob| {
      WordIs(t.blob, node);
    }
    hide U32, Word;
  }

  /** The first k bytes of a field, of which the others are zero and the last is not. */
  ghost predicate StripsTo(field: seq<Byte>, k: nat, text: seq<Byte>) {
    && k <= |field| && text == field[..k] && (forall j :: k <= j < |field| ==> field[j] == 0)
    && (k > 0 ==> field[k - 1] != 0)
  }

  ghost predicate IsText(field: seq<Byte>, text: seq<Byte>) { exists k :: StripsTo(field, k, text) }

  /** A record is eight bytes of text, without their trailing zeros, and a target. */
  lemma RecordBytes(t: Tree, node: nat, i: nat)
    requires t.Has(node, i)
    ensures var at := node + 4 + 12 * i;
      && at + 12 <= |t.blob| && t.To(node, i) == Word(t.blob, at + 8)
      && IsText(t.blob[at..at + 8], t.Segment(node, i))
  {
    var at := node + 4 + 12 * i;
    assert at + 12 <= node + 4 + 12 * t.Count(node);
    WordIs(t.blob, at + 8);
    var k := StripsZeros(t.blob[at..at + 8]);
    hide StripsTo;
  }

  lemma {:induction false} StripsZeros(s: seq<Byte>) returns (k: nat)
    ensures StripsTo(s, k, Stripped(s))
  {
    if s != [] && s[|s| - 1] == 0 {
      k := StripsZeros(s[..|s| - 1]);
      assert s[..|s| - 1][..k] == s[..k];
    } else {
      k := |s|;
      assert s[..k] == s;
    }
  }

  // ---------------------------------------------------------------- a package put together

  /** The entries' regions one after the other, each with its place in the file. */
  ghost predicate Placed(regions: seq<seq<Byte>>, at: nat, rows: seq<Row>)
    decreases |regions|
  {
    && |rows| == |regions|
    && (regions != [] ==>
          && |regions[0]| >= 4 && rows[0] == Row(at, |regions[0]| - 4)
          && Placed(regions[1..], at + |regions[0]|, rows[1..]))
  }

  /** A table row: offset and size, four bytes each. */
  function RowBytes(row: Row): seq<Byte> { PutLe(row.offset, 4) + PutLe(row.size, 4) }

  function TableBytes(rows: seq<Row>): seq<Byte> {
    if rows == [] then [] else RowBytes(rows[0]) + TableBytes(rows[1..])
  }

  /** The file: what precedes the first region, the regions, the path tree, and the table twice. */
  function Assembled(head: seq<Byte>, regions: seq<seq<Byte>>, tree: seq<Byte>, rows: seq<Row>): seq<Byte> {
    head + Flatten(regions) + tree + TableBytes(rows) + TableBytes(rows)
  }

  lemma {:induction false} PlacedTile(regions: seq<seq<Byte>>, at: nat, rows: seq<Row>)
    requires Placed(regions, at, rows) && at >= 64
    ensures RowsTile(rows, at + |Flatten(regions)|)
    ensures rows != [] ==> rows[0].offset == at
    decreases |regions|
  {
    if regions != [] {
      PlacedTile(regions[1..], at + |regions[0]|, rows[1..]);
      var tree := at + |Flatten(regions)|;
      var rest := rows[1..];
      forall i | 0 <= i < |rows|
        ensures rows[i].offset >= HEADER && rows[i].offset + rows[i].size + TRAILER == Next(rows, tree, i)
      {
        if i > 0 {
          assert rows[i] == rest[i - 1] && Next(rows, tree, i) == Next(rest, tree, i - 1);
        } else if |rows| == 1 {
          assert Flatten(regions[1..]) == [];
        } else {
          assert rows[1] == rest[0];
        }
      }
    }
  }

  lemma {:induction false} TableRow(rows: seq<Row>, i: nat)
    requires i < |rows| && forall r <- rows :: r.offset < 0x1_0000_0000 && r.size < 0x1_0000_0000
    ensures |TableBytes(rows)| == 8 * |rows|
    ensures U32(TableBytes(rows), 8 * i) == rows[i].offset && U32(TableBytes(rows), 8 * i + 4) == rows[i].size
  {
    var rest := rows[1..];
    TableLength(rows);
    TableLength(rest);
    if i == 0 {
      RowReadsBack(rows[0], TableBytes(rest));
    } else {
      assert forall r <- rest :: r in rows;
      TableRow(rest, i - 1);
      BehindRow(RowBytes(rows[0]), TableBytes(rest), 8 * (i - 1));
      BehindRow(RowBytes(rows[0]), TableBytes(rest), 8 * (i - 1) + 4);
    }
    hide U32, RowBytes;
  }

  lemma RowReadsBack(row: Row, rest: seq<Byte>)
    requires row.offset < 0x1_0000_0000 && row.size < 0x1_0000_0000
    ensures U32(RowBytes(row) + rest, 0) == row.offset && U32(RowBytes(row) + rest, 4) == row.size
  {
    Widths();
    LeRoundTrip(row.offset, 4);
    LeRoundTrip(row.size, 4);
    var bytes := RowBytes(row) + rest;
    hide PutLe, GetLe;
    assert bytes[0..4] == PutLe(row.offset, 4) && bytes[4..8] == PutLe(row.size, 4);
  }

  lemma BehindRow(first: seq<Byte>, rest: seq<Byte>, at: nat)
    requires |first| == 8 && at + 4 <= |rest|
    ensures U32(first + rest, 8 + at) == U32(rest, at)
  {
    assert (first + rest)[8 + at..8 + at + 4] == rest[at..at + 4];
    hide GetLe;
  }

  lemma {:induction false} TableLength(rows: seq<Row>)
    ensures |TableBytes(rows)| == 8 * |rows|
  {
    if rows != [] {
      TableLength(rows[1..]);
    }
  }

  lemma SliceOfSlice(data: seq<Byte>, a: nat, b: nat, c: nat, d: nat)
    requires a <= b <= |data| && c <= d && a + d <= b
    ensures data[a..b][c..d] == data[a + c..a + d]
  {
    var x, y := data[a..b][c..d], data[a + c..a + d];
    assert |x| == |y|;
    assert forall k :: 0 <= k < |x| ==> x[k] == data[a + c + k] && y[k] == data[a + c + k];
  }

  lemma WordOfPart(data: seq<Byte>, a: nat, b: nat, at: nat)
    requires a <= b <= |data| && a + at + 4 <= b
    ensures U32(data, a + at) == U32(data[a..b], at)
  {
    SliceOfSlice(data, a, b, at, at + 4);
  }

  /** The four words of the head that name the tree, the two tables and the number of entries. */
  ghost predicate HeadNames(head: seq<Byte>, l: Layout)
    requires |head| >= 64
  {
    l == Layout(Word(head, 0x28), Word(head, 0x2C), Word(head, 0x30), Word(head, 0x34))
  }

  /**
   * A package put together from a head that names its parts, regions of at least a trailer, and a well-formed path
   * tree is accepted, and read back with exactly these rows.
   */
  lemma AssembledPackageParses(head: seq<Byte>, regions: seq<seq<Byte>>, tree: seq<Byte>, rows: seq<Row>)
    requires |head| >= 64 && Placed(regions, |head|, rows) && WellFormed(Tree(tree, |rows|))
    requires forall r <- rows :: r.offset < 0x1_0000_0000 && r.size < 0x1_0000_0000
    requires HeadNames(head, Places(head, regions, tree, rows))
    ensures ReadBack(Assembled(head, regions, tree, rows), rows, Places(head, regions, tree, rows))
  {
    hide *;
    TreeBehind(head, regions, tree, rows);
    PlacedTile(regions, |head|, rows);
    AssembledParts(head, regions, tree, rows);
    PartsParse(Assembled(head, regions, tree, rows), head, tree, rows, Places(head, regions, tree, rows));
  }

  /** Where the parts of an assembled package lie. */
  function Places(head: seq<Byte>, regions: seq<seq<Byte>>, tree: seq<Byte>, rows: seq<Row>): Layout {
    var t := |head| + |Flatten(regions)|;
    Layout(t, t + |tree|, t + |tree| + 8 * |rows|, |rows|)
  }

  lemma TreeBehind(head: seq<Byte>, regions: seq<seq<Byte>>, tree: seq<Byte>, rows: seq<Row>)
    ensures Places(head, regions, tree, rows).tree == |head| + |Flatten(regions)|
    ensures Places(head, regions, tree, rows).count == |rows|
  {
  }

  /** The package is accepted with these rows and this layout. */
  ghost predicate ReadBack(data: seq<Byte>, rows: seq<Row>, l: Layout) {
    Parse(data).Parsed? && Parse(data).rows == rows && Parse(data).layout == l
  }

  /** The file is cut at these places into head and regions, tree, and two tables. */
  ghost predicate CutAt(data: seq<Byte>, head: seq<Byte>, tree: seq<Byte>, table: seq<Byte>, l: Layout) {
    && |head| <= l.tree && l.table == l.tree + |tree| && l.backup == l.table + |table|
    && |table| == 8 * l.count && |data| == l.backup + |table|
    && data[..|head|] == head && data[l.tree..l.table] == tree
    && data[l.table..l.backup] == table && data[l.backup..] == table
  }

  lemma PartsParse(data: seq<Byte>, head: seq<Byte>, tree: seq<Byte>, rows: seq<Row>, l: Layout)
    requires 64 <= |head| && HeadNames(head, l) && l.count == |rows| && CutAt(data, head, tree, TableBytes(rows), l)
    requires forall r <- rows :: r.offset < 0x1_0000_0000 && r.size < 0x1_0000_0000
    requires RowsTile(rows, l.tree) && WellFormed(Tree(tree, |rows|))
    ensures ReadBack(data, rows, l)
  {
    LaidOut(data, head, tree, TableBytes(rows), l);
    hide LayoutOf, RowsTile, WellFormed, ParseTree, RowsOf, TableBytes, LayoutSound, HeadNames;
    RowsReadBack(data, l, rows);
    ParserAcceptsExactlyWellFormed(Tree(tree, |rows|));
    Accepts(data, l, rows);
  }

  lemma AssembledParts(head: seq<Byte>, regions: seq<seq<Byte>>, tree: seq<Byte>, rows: seq<Row>)
    ensures CutAt(Assembled(head, regions, tree, rows), head, tree, TableBytes(rows), Places(head, regions, tree, rows))
  {
    TableLength(rows);
    PartsOf(head, Flatten(regions), tree, TableBytes(rows));
    hide Flatten, TableBytes;
  }

  lemma PartsOf(head: seq<Byte>, body: seq<Byte>, tree: seq<Byte>, table: seq<Byte>)
    ensures var data, t := head + body + tree + table + table, |head| + |body|;
      && |data| == t + |tree| + 2 * |table| && data[..|head|] == head && data[t..t + |tree|] == tree
      && data[t + |tree|..t + |tree| + |table|] == table && data[t + |tree| + |table|..] == table
  {
  }

  lemma RowsReadBack(data: seq<Byte>, l: Layout, rows: seq<Row>)
    requires LayoutSound(data, l) && l.count == |rows| && data[l.table..l.backup] == TableBytes(rows)
    requires forall r <- rows :: r.offset < 0x1_0000_0000 && r.size < 0x1_0000_0000
    ensures RowsOf(data, l) == rows
  {
    hide U32, TableBytes;
    forall i: nat | i < |rows|
      ensures RowAt(data, l, i) == rows[i]
    {
      TableRow(rows, i);
      WordOfPart(data, l.table, l.backup, 8 * i);
      WordOfPart(data, l.table, l.backup, 8 * i + 4);
    }
    assert RowsOf(data, l) == rows;
  }

  lemma LaidOut(data: seq<Byte>, head: seq<Byte>, tree: seq<Byte>, table: seq<Byte>, l: Layout)
    requires 64 <= |head| && HeadNames(head, l) && CutAt(data, head, tree, table, l)
    ensures |data| >= 64 && LayoutOf(data) == l && LayoutSound(data, l)
  {
    HeadWords(head, data);
    hide LayoutOf, Word;
  }

  lemma Accepts(data: seq<Byte>, l: Layout, rows: seq<Row>)
    requires |data| >= 64 && LayoutOf(data) == l && LayoutSound(data, l) && RowsOf(data, l) == rows
    requires RowsTile(rows, l.tree) && ParseTree(Tree(data[l.tree..l.table], l.count)).Ok?
    ensures ReadBack(data, rows, l)
  {
    hide LayoutOf, LayoutSound, RowsOf, RowsTile, ParseTree;
  }

  lemma HeadWords(head: seq<Byte>, data: seq<Byte>)
    requires |head| >= 64 && |data| >= |head| && data[..|head|] == head
    ensures LayoutOf(data) == Layout(Word(head, 0x28), Word(head, 0x2C), Word(head, 0x30), Word(head, 0x34))
  {
    WordIs(head, 0x28);
    WordIs(head, 0x2C);
    WordIs(head, 0x30);
    WordIs(head, 0x34);
    hide Word;
    assert data[0..|head|] == head;
    WordOfPart(data, 0, |head|, 0x28);
    WordOfPart(data, 0, |head|, 0x2C);
    WordOfPart(data, 0, |head|, 0x30);
    WordOfPart(data, 0, |head|, 0x34);
  }
}
