/** The header, data regions and tables of an SPF2 package: regions that tile the file. */
module PackageIndex {
  import opened Bytes
  import opened RadixIndex

  const HEADER: nat := 64
  const TREE_FIELD: nat := 0x28
  const TABLE_FIELD: nat := 0x2C
  const BACKUP_FIELD: nat := 0x30
  const COUNT_FIELD: nat := 0x34
  const ROW: nat := 8
  const TRAILER: nat := 4

  datatype Row = Row(offset: nat, size: nat)

  datatype Layout = Layout(tree: nat, table: nat, backup: nat, count: nat)

  datatype Parsed = Parsed(layout: Layout, rows: seq<Row>, found: Found) | Refused

  function LayoutOf(data: seq<Byte>): Layout
    requires |data| >= HEADER
  {
    Layout(U32(data, TREE_FIELD), U32(data, TABLE_FIELD), U32(data, BACKUP_FIELD), U32(data, COUNT_FIELD))
  }

  /** Offsets in order, a primary table of the declared size, and a backup table that ends the file and equals it. */
  predicate LayoutSound(data: seq<Byte>, l: Layout) {
    && HEADER <= l.tree <= l.table <= l.backup && l.table + l.count * ROW == l.backup
    && l.backup + l.count * ROW == |data| && data[l.table..l.backup] == data[l.backup..]
  }

  function RowAt(data: seq<Byte>, l: Layout, i: nat): Row
    requires LayoutSound(data, l) && i < l.count
  {
    Row(U32(data, l.table + i * ROW), U32(data, l.table + i * ROW + 4))
  }

  function RowsOf(data: seq<Byte>, l: Layout): (rows: seq<Row>)
    requires LayoutSound(data, l)
    ensures |rows| == l.count
  {
    seq(l.count, i requires 0 <= i < l.count => RowAt(data, l, i))
  }

  /** Where the region after entry i begins. */
  function Next(rows: seq<Row>, tree: nat, i: nat): nat
    requires i < |rows|
  {
    if i + 1 < |rows| then rows[i + 1].offset else tree
  }

  /** Every payload starts behind the header and ends, with its trailer, where the next region begins. */
  predicate RowsTile(rows: seq<Row>, tree: nat) {
    forall i :: 0 <= i < |rows| ==>
      rows[i].offset >= HEADER && rows[i].offset + rows[i].size + TRAILER == Next(rows, tree, i)
  }

  function Parse(data: seq<Byte>): Parsed {
    if |data| < HEADER then Refused
    else
      var l := LayoutOf(data);
      if !LayoutSound(data, l) then Refused
      else
        var rows := RowsOf(data, l);
        if !RowsTile(rows, l.tree) then Refused
        else
          match ParseTree(Tree(data[l.tree..l.table], l.count))
          case Failed(_) => Refused
          case Ok(found) => Parsed(l, rows, found)
  }

  /** The bytes of one data region: payload and trailer. */
  function Region(data: seq<Byte>, row: Row): seq<Byte>
    requires row.offset + row.size + TRAILER <= |data|
  {
    data[row.offset..row.offset + row.size + TRAILER]
  }

  /** Regions never run past the tree, so they lie in the file. */
  lemma {:induction false} RowsInside(rows: seq<Row>, tree: nat, i: nat)
    requires RowsTile(rows, tree) && i < |rows|
    ensures rows[i].offset + rows[i].size + TRAILER <= tree
    decreases |rows| - i
  {
    assert rows[i].offset + rows[i].size + TRAILER == Next(rows, tree, i);
    if i + 1 < |rows| {
      RowsInside(rows, tree, i + 1);
    }
  }

  ghost predicate Inside(rows: seq<Row>, n: nat) {
    forall i :: 0 <= i < |rows| ==> rows[i].offset + rows[i].size + TRAILER <= n
  }

  function Regions(data: seq<Byte>, rows: seq<Row>): seq<seq<Byte>>
    requires Inside(rows, |data|)
  {
    seq(|rows|, i requires 0 <= i < |rows| => Region(data, rows[i]))
  }

  lemma RestTiles(rows: seq<Row>, tree: nat)
    requires RowsTile(rows, tree) && rows != []
    ensures RowsTile(rows[1..], tree)
  {
    var rest := rows[1..];
    forall i | 0 <= i < |rest|
      ensures rest[i].offset >= HEADER && rest[i].offset + rest[i].size + TRAILER == Next(rest, tree, i)
    {
      assert rest[i] == rows[i + 1] && Next(rest, tree, i) == Next(rows, tree, i + 1);
    }
  }

  lemma RegionsTail(data: seq<Byte>, rows: seq<Row>)
    requires Inside(rows, |data|) && rows != []
    ensures Inside(rows[1..], |data|)
    ensures Flatten(Regions(data, rows)) == Region(data, rows[0]) + Flatten(Regions(data, rows[1..]))
  {
    assert Regions(data, rows)[1..] == Regions(data, rows[1..]);
  }

  lemma {:induction false} RegionsJoin(data: seq<Byte>, rows: seq<Row>, tree: nat)
    requires RowsTile(rows, tree) && Inside(rows, |data|) && tree <= |data| && rows != []
    ensures rows[0].offset <= tree && Flatten(Regions(data, rows)) == data[rows[0].offset..tree]
    decreases |rows|
  {
    RowsInside(rows, tree, 0);
    var first, rest := rows[0], rows[1..];
    var end := first.offset + first.size + TRAILER;
    assert end == Next(rows, tree, 0);
    RestTiles(rows, tree);
    RegionsTail(data, rows);
    if rest == [] {
      assert Flatten(Regions(data, rest)) == [];
    } else {
      RegionsJoin(data, rest, tree);
      JoinSlices(data, first.offset, end, tree);
    }
    hide RowsTile, Inside, Regions, Flatten;
  }

  lemma JoinSlices(data: seq<Byte>, a: nat, b: nat, c: nat)
    requires a <= b <= c <= |data|
    ensures data[a..c] == data[a..b] + data[b..c]
  {
  }

  lemma SplitFile(data: seq<Byte>, a: nat, b: nat, c: nat, d: nat)
    requires a <= b <= c <= d <= |data|
    ensures data == data[..a] + data[a..b] + data[b..c] + data[c..d] + data[d..]
  {
  }

  /**
   * The parts of an accepted package tile the file: what precedes the first payload, every payload with its
   * trailer, the path tree and two equal tables, one after the other and nothing else. So no byte belongs to two
   * entries, and none is unaccounted for.
   */
  lemma AcceptedPackageIsTiled(data: seq<Byte>)
    requires Parse(data).Parsed?
    ensures var p := Parse(data); var l := p.layout;
      && l.tree <= l.table <= l.backup <= |data| && Inside(p.rows, |data|) && |p.rows| == l.count
      && var head := if p.rows == [] then l.tree else p.rows[0].offset;
         && HEADER <= head <= l.tree
         && data == data[..head] + Flatten(Regions(data, p.rows)) + data[l.tree..l.table]
                    + data[l.table..l.backup] + data[l.table..l.backup]
  {
    var l := LayoutOf(data);
    var rows := RowsOf(data, l);
    forall i | 0 <= i < |rows|
      ensures rows[i].offset + rows[i].size + TRAILER <= |data|
    {
      RowsInside(rows, l.tree, i);
    }
    var head := if rows == [] then l.tree else rows[0].offset;
    if rows == [] {
      assert Regions(data, rows) == [];
      assert data[head..l.tree] == [];
    } else {
      RegionsJoin(data, rows, l.tree);
    }
    hide LayoutOf, RowsOf, ParseTree, Regions, Flatten, U32, RowsTile;
    SplitFile(data, head, l.tree, l.table, l.backup);
  }

  /** Two data regions of an accepted package never overlap, and later entries lie behind earlier ones. */
  lemma {:induction false} EntriesDisjoint(rows: seq<Row>, tree: nat, i: nat, j: nat)
    requires RowsTile(rows, tree) && i < j < |rows|
    ensures rows[i].offset + rows[i].size + TRAILER <= rows[j].offset
    decreases j
  {
    assert rows[j - 1].offset + rows[j - 1].size + TRAILER == Next(rows, tree, j - 1);
    if i < j - 1 {
      EntriesDisjoint(rows, tree, i, j - 1);
    }
  }

  /** Every entry of an accepted package has exactly one path, the one all its routes spell. */
  lemma EveryEntryHasOnePath(data: seq<Byte>, e: nat)
    requires Parse(data).Parsed? && e < |Parse(data).rows|
    ensures e in Parse(data).found.leaves
    ensures var p := Parse(data); var t := Tree(data[p.layout.tree..p.layout.table], p.layout.count);
      forall r | t.Spells(0, r) && t.EntryOf(0, r) == e :: t.Text(0, r) == p.found.leaves[e]
  {
    var p := Parse(data);
    var t := Tree(data[p.layout.tree..p.layout.table], p.layout.count);
    assert ParseTree(t) == Ok(p.found);
    hide LayoutOf, RowsOf, RowsTile, U32, Walk;
    forall r | t.Spells(0, r) && t.EntryOf(0, r) == e
      ensures t.Text(0, r) == p.found.leaves[e]
    {
      ParsedPaths(t, r);
    }
  }

  /** The checks in the order the tool makes them, reading the rows in a loop. */
  method ParseIndex(data: seq<Byte>) returns (p: Parsed)
    ensures p == Parse(data)
  {
    hide U32, Walk;
    if |data| < HEADER {
      return Refused;
    }
    var tree, table := U32(data, TREE_FIELD), U32(data, TABLE_FIELD);
    var backup, count := U32(data, BACKUP_FIELD), U32(data, COUNT_FIELD);
    if !(HEADER <= tree <= table <= backup) || table + count * ROW != backup || backup + count * ROW != |data| {
      return Refused;
    }
    if data[table..backup] != data[backup..] {
      return Refused;
    }
    var l := Layout(tree, table, backup, count);
    assert LayoutSound(data, l) && l == LayoutOf(data);
    var rows: seq<Row> := [];
    while |rows| < count
      invariant |rows| <= count && forall i :: 0 <= i < |rows| ==> rows[i] == RowAt(data, l, i)
    {
      rows := rows + [Row(U32(data, table + |rows| * ROW), U32(data, table + |rows| * ROW + 4))];
    }
    assert rows == RowsOf(data, l);
    var i := 0;
    while i < count
      invariant 0 <= i <= count
      invariant forall j :: 0 <= j < i ==>
        rows[j].offset >= HEADER && rows[j].offset + rows[j].size + TRAILER == Next(rows, tree, j)
    {
      var end := rows[i].offset + rows[i].size + TRAILER;
      if rows[i].offset < HEADER || end != Next(rows, tree, i) {
        return Refused;
      }
      i := i + 1;
    }
    var reader := new TreeReader(Tree(data[tree..table], count));
    var walked := reader.Parse();
    p := if walked.Ok? then Parsed(l, rows, walked.found) else Refused;
  }
}
