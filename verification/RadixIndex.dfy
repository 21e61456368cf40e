/** The path tree of an SPF2 package: recursion over a graph encoded in a file. */
module RadixIndex {
  import opened Bytes

  const RECORD: nat := 12
  const SEGMENT: nat := 8
  const LEAF_BASE: nat := 0x1000000

  function U32(data: seq<Byte>, offset: nat): nat
    requires offset + 4 <= |data|
  {
    GetLe(data[offset..offset + 4])
  }

  /** The segment field without its trailing zero bytes. */
  function Stripped(s: seq<Byte>): seq<Byte> {
    if s != [] && s[|s| - 1] == 0 then Stripped(s[..|s| - 1]) else s
  }

  /** A target with all bits of its top byte set names a leaf; its other 24 bits are the entry index. */
  predicate IsLeaf(target: nat) { target / LEAF_BASE == 0xFF }

  function LeafIndex(target: nat): nat { target % LEAF_BASE }

  /** A tree blob and the number of entries its package declares. */
  datatype Tree = Tree(blob: seq<Byte>, entries: nat) {
    /** A node: in bounds, with no more records than entries, all of them inside the tree. */
    predicate Sound(node: nat) {
      node + 4 <= |blob| && U32(blob, node) <= entries && node + 4 + U32(blob, node) * RECORD <= |blob|
    }

    function Count(node: nat): nat
      requires Sound(node)
    {
      U32(blob, node)
    }

    predicate Has(node: nat, i: nat) { Sound(node) && i < Count(node) }

    function To(node: nat, i: nat): nat
      requires Has(node, i)
    {
      U32(blob, node + 4 + i * RECORD + SEGMENT)
    }

    function Segment(node: nat, i: nat): seq<Byte>
      requires Has(node, i)
    {
      var at := node + 4 + i * RECORD;
      Stripped(blob[at..at + SEGMENT])
    }

    // -------------------------------------------------------------- what a tree means

    /** The record numbers lead from a node to another node, through sound nodes. */
    predicate Leads(node: nat, route: seq<nat>)
      decreases |route|
    {
      route == [] || (Has(node, route[0]) && !IsLeaf(To(node, route[0])) && Leads(To(node, route[0]), route[1..]))
    }

    function NodeAt(node: nat, route: seq<nat>): nat
      requires Leads(node, route)
      decreases |route|
    {
      if route == [] then node else NodeAt(To(node, route[0]), route[1..])
    }

    /** The nodes passed on the way, without the last one. */
    function Passed(node: nat, route: seq<nat>): set<nat>
      requires Leads(node, route)
      decreases |route|
    {
      if route == [] then {} else {node} + Passed(To(node, route[0]), route[1..])
    }

    /** The record numbers lead from a node to a leaf. */
    predicate Spells(node: nat, route: seq<nat>)
      decreases |route|
    {
      && route != [] && Has(node, route[0])
      && if |route| == 1 then IsLeaf(To(node, route[0]))
         else !IsLeaf(To(node, route[0])) && Spells(To(node, route[0]), route[1..])
    }

    function EntryOf(node: nat, route: seq<nat>): nat
      requires Spells(node, route)
      decreases |route|
    {
      if |route| == 1 then LeafIndex(To(node, route[0])) else EntryOf(To(node, route[0]), route[1..])
    }

    /** The bytes a route spells. */
    function Text(node: nat, route: seq<nat>): seq<Byte>
      requires Spells(node, route)
      decreases |route|
    {
      Segment(node, route[0]) + if |route| == 1 then [] else Text(To(node, route[0]), route[1..])
    }
  }

  /** Every node that can be reached is sound, none is active already, and none is reached again below itself. */
  ghost predicate Acyclic(t: Tree, node: nat, active: set<nat>) {
    forall route | t.Leads(node, route) ::
      t.Sound(t.NodeAt(node, route)) && t.NodeAt(node, route) !in active
      && t.NodeAt(node, route) !in t.Passed(node, route)
  }

  /** Leaves from record i on name entries in range and agree with the paths already known. */
  ghost predicate AgreesFrom(t: Tree, node: nat, i: nat, prefix: seq<Byte>, leaves: map<nat, seq<Byte>>) {
    forall r | t.Spells(node, r) && r[0] >= i ::
      t.EntryOf(node, r) < t.entries
      && (t.EntryOf(node, r) in leaves ==> leaves[t.EntryOf(node, r)] == prefix + t.Text(node, r))
  }

  /** Routes to one entry spell the same bytes. */
  ghost predicate Unambiguous(t: Tree, node: nat) {
    forall r, q | t.Spells(node, r) && t.Spells(node, q) && t.EntryOf(node, r) == t.EntryOf(node, q) ::
      t.Text(node, r) == t.Text(node, q)
  }

  // ---------------------------------------------------------------- the walk

  datatype Failure = Cycle | Outside | BadNode | BadIndex | Conflict | Mismatch

  datatype Found = Found(leaves: map<nat, seq<Byte>>, nodes: set<nat>)

  datatype Walked = Ok(found: Found) | Failed(why: Failure)

  /** Node offsets not on the current path: what bounds the recursion. */
  function Free(blob: seq<Byte>, active: set<nat>): set<nat> {
    set o: nat | o < |blob| && o !in active
  }

  lemma FreeShrinks(blob: seq<Byte>, active: set<nat>, node: nat)
    requires node < |blob| && node !in active
    ensures |Free(blob, active + {node})| < |Free(blob, active)|
  {
    assert Free(blob, active) == Free(blob, active + {node}) + {node};
  }

  function Walk(t: Tree, node: nat, prefix: seq<Byte>, active: set<nat>, f: Found): Walked
    decreases |Free(t.blob, active)|, 1, 0
  {
    if node in active then Failed(Cycle)
    else if node + 4 > |t.blob| then Failed(Outside)
    else if !t.Sound(node) then Failed(BadNode)
    else
      FreeShrinks(t.blob, active, node);
      Records(t, node, 0, prefix, active + {node}, f.(nodes := f.nodes + {node}))
  }

  function Records(t: Tree, node: nat, i: nat, prefix: seq<Byte>, active: set<nat>, f: Found): Walked
    requires t.Sound(node) && i <= t.Count(node)
    decreases |Free(t.blob, active)|, 2, t.Count(node) - i
  {
    if i == t.Count(node) then Ok(f)
    else
      var target, path := t.To(node, i), prefix + t.Segment(node, i);
      if IsLeaf(target) then
        var e := LeafIndex(target);
        if e >= t.entries then Failed(BadIndex)
        else if e in f.leaves && f.leaves[e] != path then Failed(Conflict)
        else Records(t, node, i + 1, prefix, active, f.(leaves := f.leaves[e := path]))
      else
        match Walk(t, target, path, active, f)
        case Failed(why) => Failed(why)
        case Ok(g) => Records(t, node, i + 1, prefix, active, g)
  }

  predicate AllLeaves(leaves: map<nat, seq<Byte>>, entries: nat) {
    (forall e <- leaves :: e < entries) && forall e: nat :: e < entries ==> e in leaves
  }

  function ParseTree(t: Tree): Walked {
    match Walk(t, 0, [], {}, Found(map[], {}))
    case Failed(why) => Failed(why)
    case Ok(f) => if AllLeaves(f.leaves, t.entries) then Ok(f) else Failed(Mismatch)
  }

  // ---------------------------------------------------------------- a successful walk tells the truth

  /** A leaf of the result was known before or is spelled by a route from record i on. */
  ghost predicate Spelled(t: Tree, node: nat, i: nat, prefix: seq<Byte>, e: nat, text: seq<Byte>) {
    exists r :: t.Spells(node, r) && r[0] >= i && t.EntryOf(node, r) == e && text == prefix + t.Text(node, r)
  }

  /** Leaves only grow, every leaf below is in the result, and every new one comes from below. */
  ghost predicate Truthful(t: Tree, node: nat, i: nat, prefix: seq<Byte>,
                           old_: map<nat, seq<Byte>>, new_: map<nat, seq<Byte>>) {
    && (forall e <- old_ :: e in new_ && new_[e] == old_[e])
    && (forall r | t.Spells(node, r) && r[0] >= i ::
          t.EntryOf(node, r) < t.entries && t.EntryOf(node, r) in new_
          && new_[t.EntryOf(node, r)] == prefix + t.Text(node, r))
    && (forall e <- new_ :: e in old_ || Spelled(t, node, i, prefix, e, new_[e]))
  }

  /** Routes from record i on stay clear of the active nodes, of unsound nodes and of themselves. */
  ghost predicate ClearFrom(t: Tree, node: nat, i: nat, active: set<nat>) {
    forall route | t.Leads(node, route) && route != [] && route[0] >= i ::
      t.Sound(t.NodeAt(node, route)) && t.NodeAt(node, route) !in active
      && t.NodeAt(node, route) !in t.Passed(node, route)
  }

  lemma Below(t: Tree, node: nat, r: seq<nat>)
    requires t.Spells(node, r) && |r| > 1
    ensures t.Spells(t.To(node, r[0]), r[1..]) && t.EntryOf(node, r) == t.EntryOf(t.To(node, r[0]), r[1..])
    ensures t.Text(node, r) == t.Segment(node, r[0]) + t.Text(t.To(node, r[0]), r[1..])
  {
  }

  lemma Above(t: Tree, node: nat, i: nat, q: seq<nat>)
    requires t.Has(node, i) && !IsLeaf(t.To(node, i)) && t.Spells(t.To(node, i), q)
    ensures t.Spells(node, [i] + q) && t.EntryOf(node, [i] + q) == t.EntryOf(t.To(node, i), q)
    ensures t.Text(node, [i] + q) == t.Segment(node, i) + t.Text(t.To(node, i), q)
  {
    assert ([i] + q)[1..] == q;
  }

  /** Above, with the text already spelled on the way down. */
  lemma AboveText(t: Tree, node: nat, i: nat, prefix: seq<Byte>, q: seq<nat>)
    requires t.Has(node, i) && !IsLeaf(t.To(node, i)) && t.Spells(t.To(node, i), q)
    ensures t.Spells(node, [i] + q) && ([i] + q)[0] == i && t.EntryOf(node, [i] + q) == t.EntryOf(t.To(node, i), q)
    ensures prefix + t.Segment(node, i) + t.Text(t.To(node, i), q) == prefix + t.Text(node, [i] + q)
  {
    Above(t, node, i, q);
    Regroup(prefix, t.Segment(node, i), t.Text(t.To(node, i), q));
  }

  lemma Regroup(a: seq<Byte>, b: seq<Byte>, c: seq<Byte>)
    ensures a + b + c == a + (b + c)
    ensures (a + b)[|a|..] == b
  {
  }

  lemma Here(t: Tree, node: nat, i: nat)
    requires t.Has(node, i) && IsLeaf(t.To(node, i))
    ensures t.Spells(node, [i]) && t.EntryOf(node, [i]) == LeafIndex(t.To(node, i))
    ensures t.Text(node, [i]) == t.Segment(node, i)
  {
  }

  /** The last record has been passed: nothing is left to say. */
  lemma TruthfulEnd(t: Tree, node: nat, prefix: seq<Byte>, leaves: map<nat, seq<Byte>>)
    requires t.Sound(node)
    ensures Truthful(t, node, t.Count(node), prefix, leaves, leaves)
  {
  }

  lemma TruthfulLeaf(t: Tree, node: nat, i: nat, prefix: seq<Byte>,
                     old_: map<nat, seq<Byte>>, new_: map<nat, seq<Byte>>)
    requires t.Has(node, i) && IsLeaf(t.To(node, i)) && LeafIndex(t.To(node, i)) < t.entries
    requires var e, path := LeafIndex(t.To(node, i)), prefix + t.Segment(node, i);
      (e in old_ ==> old_[e] == path) && Truthful(t, node, i + 1, prefix, old_[e := path], new_)
    ensures Truthful(t, node, i, prefix, old_, new_)
  {
    Here(t, node, i);
    var e, path := LeafIndex(t.To(node, i)), prefix + t.Segment(node, i);
    assert new_[e] == path;
    forall r | t.Spells(node, r) && r[0] >= i
      ensures t.EntryOf(node, r) < t.entries && t.EntryOf(node, r) in new_
      ensures new_[t.EntryOf(node, r)] == prefix + t.Text(node, r)
    {
      if r[0] == i {
        assert r == [i];
      }
    }
    forall x | x in new_
      ensures x in old_ || Spelled(t, node, i, prefix, x, new_[x])
    {
      if x !in old_[e := path] {
        var r :| t.Spells(node, r) && r[0] >= i + 1 && t.EntryOf(node, r) == x && new_[x] == prefix + t.Text(node, r);
      } else if x == e {
        assert [i][0] >= i;
      }
    }
  }

  lemma TruthfulNode(t: Tree, node: nat, i: nat, prefix: seq<Byte>, old_: map<nat, seq<Byte>>,
                     mid: map<nat, seq<Byte>>, new_: map<nat, seq<Byte>>)
    requires t.Has(node, i) && !IsLeaf(t.To(node, i))
    requires Truthful(t, t.To(node, i), 0, prefix + t.Segment(node, i), old_, mid)
    requires Truthful(t, node, i + 1, prefix, mid, new_)
    ensures Truthful(t, node, i, prefix, old_, new_)
  {
    var target, path := t.To(node, i), prefix + t.Segment(node, i);
    forall r | t.Spells(node, r) && r[0] >= i
      ensures t.EntryOf(node, r) < t.entries && t.EntryOf(node, r) in new_
      ensures new_[t.EntryOf(node, r)] == prefix + t.Text(node, r)
    {
      if r[0] == i {
        Below(t, node, r);
        Regroup(prefix, t.Segment(node, i), t.Text(target, r[1..]));
      }
    }
    forall x | x in new_
      ensures x in old_ || Spelled(t, node, i, prefix, x, new_[x])
    {
      if x !in mid {
        var r :| t.Spells(node, r) && r[0] >= i + 1 && t.EntryOf(node, r) == x && new_[x] == prefix + t.Text(node, r);
      } else if x !in old_ {
        var q :| t.Spells(target, q) && q[0] >= 0 && t.EntryOf(target, q) == x && mid[x] == path + t.Text(target, q);
        AboveText(t, node, i, prefix, q);
      }
    }
  }

  lemma {:induction false} WalkTruthful(t: Tree, node: nat, prefix: seq<Byte>, active: set<nat>, f: Found)
    requires Walk(t, node, prefix, active, f).Ok?
    ensures Truthful(t, node, 0, prefix, f.leaves, Walk(t, node, prefix, active, f).found.leaves)
    decreases |Free(t.blob, active)|, 1, 0
  {
    FreeShrinks(t.blob, active, node);
    RecordsTruthful(t, node, 0, prefix, active + {node}, f.(nodes := f.nodes + {node}));
  }

  lemma {:induction false} RecordsTruthful(t: Tree, node: nat, i: nat, prefix: seq<Byte>, active: set<nat>, f: Found)
    requires t.Sound(node) && i <= t.Count(node) && Records(t, node, i, prefix, active, f).Ok?
    ensures Truthful(t, node, i, prefix, f.leaves, Records(t, node, i, prefix, active, f).found.leaves)
    decreases |Free(t.blob, active)|, 2, t.Count(node) - i
  {
    hide Truthful, Free;
    if i == t.Count(node) {
      TruthfulEnd(t, node, prefix, f.leaves);
    } else {
      var target, path := t.To(node, i), prefix + t.Segment(node, i);
      var last := Records(t, node, i, prefix, active, f).found.leaves;
      if IsLeaf(target) {
        var e := LeafIndex(target);
        RecordsTruthful(t, node, i + 1, prefix, active, f.(leaves := f.leaves[e := path]));
        TruthfulLeaf(t, node, i, prefix, f.leaves, last);
      } else {
        WalkTruthful(t, target, path, active, f);
        var g := Walk(t, target, path, active, f).found;
        RecordsTruthful(t, node, i + 1, prefix, active, g);
        TruthfulNode(t, node, i, prefix, f.leaves, g.leaves, last);
      }
    }
  }

  // ---------------------------------------------------------------- a successful walk met no cycle

  lemma LeadsBelow(t: Tree, node: nat, route: seq<nat>)
    requires t.Leads(node, route) && route != []
    ensures t.Leads(t.To(node, route[0]), route[1..])
    ensures t.NodeAt(node, route) == t.NodeAt(t.To(node, route[0]), route[1..])
    ensures t.Passed(node, route) == {node} + t.Passed(t.To(node, route[0]), route[1..])
  {
  }

  lemma LeadsAbove(t: Tree, node: nat, i: nat, q: seq<nat>)
    requires t.Has(node, i) && !IsLeaf(t.To(node, i)) && t.Leads(t.To(node, i), q)
    ensures t.Leads(node, [i] + q) && t.NodeAt(node, [i] + q) == t.NodeAt(t.To(node, i), q)
    ensures t.Passed(node, [i] + q) == {node} + t.Passed(t.To(node, i), q)
  {
    assert ([i] + q)[1..] == q;
  }

  lemma {:induction false} WalkClear(t: Tree, node: nat, prefix: seq<Byte>, active: set<nat>, f: Found)
    requires Walk(t, node, prefix, active, f).Ok?
    ensures Acyclic(t, node, active)
    decreases |Free(t.blob, active)|, 1, 0
  {
    FreeShrinks(t.blob, active, node);
    RecordsClear(t, node, 0, prefix, active + {node}, f.(nodes := f.nodes + {node}));
    forall route | t.Leads(node, route)
      ensures t.Sound(t.NodeAt(node, route)) && t.NodeAt(node, route) !in active
              && t.NodeAt(node, route) !in t.Passed(node, route)
    {
      if route != [] {
        assert t.NodeAt(node, route) !in active + {node};
      }
    }
  }

  lemma {:induction false} RecordsClear(t: Tree, node: nat, i: nat, prefix: seq<Byte>, active: set<nat>, f: Found)
    requires t.Sound(node) && i <= t.Count(node) && node in active && Records(t, node, i, prefix, active, f).Ok?
    ensures ClearFrom(t, node, i, active)
    decreases |Free(t.blob, active)|, 2, t.Count(node) - i
  {
    if i < t.Count(node) {
      var target, path := t.To(node, i), prefix + t.Segment(node, i);
      if IsLeaf(target) {
        RecordsClear(t, node, i + 1, prefix, active, f.(leaves := f.leaves[LeafIndex(target) := path]));
      } else {
        WalkClear(t, target, path, active, f);
        RecordsClear(t, node, i + 1, prefix, active, Walk(t, target, path, active, f).found);
      }
      hide Records, Walk;
      forall route | t.Leads(node, route) && route != [] && route[0] >= i
        ensures t.Sound(t.NodeAt(node, route)) && t.NodeAt(node, route) !in active
                && t.NodeAt(node, route) !in t.Passed(node, route)
      {
        if route[0] == i {
          LeadsBelow(t, node, route);
        }
      }
    }
  }

  // ---------------------------------------------------------------- a walk fails only for a reason

  lemma AgreesBelow(t: Tree, node: nat, i: nat, prefix: seq<Byte>, leaves: map<nat, seq<Byte>>)
    requires t.Has(node, i) && !IsLeaf(t.To(node, i)) && AgreesFrom(t, node, i, prefix, leaves)
    ensures AgreesFrom(t, t.To(node, i), 0, prefix + t.Segment(node, i), leaves)
  {
    var target := t.To(node, i);
    forall q | t.Spells(target, q)
      ensures t.EntryOf(target, q) < t.entries
      ensures t.EntryOf(target, q) in leaves ==>
                leaves[t.EntryOf(target, q)] == prefix + t.Segment(node, i) + t.Text(target, q)
    {
      AboveText(t, node, i, prefix, q);
    }
  }

  lemma UnambiguousBelow(t: Tree, node: nat, i: nat)
    requires t.Has(node, i) && !IsLeaf(t.To(node, i)) && Unambiguous(t, node)
    ensures Unambiguous(t, t.To(node, i))
  {
    var target, segment := t.To(node, i), t.Segment(node, i);
    forall r, q | t.Spells(target, r) && t.Spells(target, q) && t.EntryOf(target, r) == t.EntryOf(target, q)
      ensures t.Text(target, r) == t.Text(target, q)
    {
      Above(t, node, i, r);
      Above(t, node, i, q);
      Regroup(segment, t.Text(target, r), []);
      Regroup(segment, t.Text(target, q), []);
    }
  }

  lemma AgreesAfterLeaf(t: Tree, node: nat, i: nat, prefix: seq<Byte>, leaves: map<nat, seq<Byte>>)
    requires t.Has(node, i) && IsLeaf(t.To(node, i)) && AgreesFrom(t, node, i, prefix, leaves) && Unambiguous(t, node)
    ensures var e := LeafIndex(t.To(node, i));
      && e < t.entries && (e in leaves ==> leaves[e] == prefix + t.Segment(node, i))
      && AgreesFrom(t, node, i + 1, prefix, leaves[e := prefix + t.Segment(node, i)])
  {
    Here(t, node, i);
    assert [i][0] >= i;
  }

  /** A route beside the walked record agrees with what the walk added. */
  lemma BesideAgrees(t: Tree, node: nat, i: nat, prefix: seq<Byte>, r: seq<nat>, text: seq<Byte>)
    requires t.Has(node, i) && !IsLeaf(t.To(node, i)) && Unambiguous(t, node) && t.Spells(node, r)
    requires Spelled(t, t.To(node, i), 0, prefix + t.Segment(node, i), t.EntryOf(node, r), text)
    ensures text == prefix + t.Text(node, r)
  {
    var target, path := t.To(node, i), prefix + t.Segment(node, i);
    var q :| t.Spells(target, q) && q[0] >= 0 && t.EntryOf(target, q) == t.EntryOf(node, r)
             && text == path + t.Text(target, q);
    AboveText(t, node, i, prefix, q);
    assert t.Text(node, [i] + q) == t.Text(node, r);
  }

  lemma AgreesAfterNode(t: Tree, node: nat, i: nat, prefix: seq<Byte>, leaves: map<nat, seq<Byte>>,
                        mid: map<nat, seq<Byte>>)
    requires t.Has(node, i) && !IsLeaf(t.To(node, i)) && AgreesFrom(t, node, i, prefix, leaves) && Unambiguous(t, node)
    requires Truthful(t, t.To(node, i), 0, prefix + t.Segment(node, i), leaves, mid)
    ensures AgreesFrom(t, node, i + 1, prefix, mid)
  {
    forall r | t.Spells(node, r) && r[0] >= i + 1
      ensures t.EntryOf(node, r) < t.entries
      ensures t.EntryOf(node, r) in mid ==> mid[t.EntryOf(node, r)] == prefix + t.Text(node, r)
    {
      var e := t.EntryOf(node, r);
      if e in mid && e !in leaves {
        hide Unambiguous, Spelled, AgreesFrom;
        BesideAgrees(t, node, i, prefix, r, mid[e]);
      }
    }
  }

  lemma ClearBelow(t: Tree, node: nat, i: nat, active: set<nat>)
    requires t.Has(node, i) && !IsLeaf(t.To(node, i)) && ClearFrom(t, node, i, active)
    ensures Acyclic(t, t.To(node, i), active)
  {
    forall q | t.Leads(t.To(node, i), q)
      ensures t.Sound(t.NodeAt(t.To(node, i), q)) && t.NodeAt(t.To(node, i), q) !in active
              && t.NodeAt(t.To(node, i), q) !in t.Passed(t.To(node, i), q)
    {
      LeadsAbove(t, node, i, q);
      assert ([i] + q)[0] >= i;
    }
  }

  lemma AcyclicClear(t: Tree, node: nat, active: set<nat>)
    requires Acyclic(t, node, active)
    ensures t.Sound(node) && node !in active && ClearFrom(t, node, 0, active + {node})
  {
    assert t.Leads(node, []) && t.NodeAt(node, []) == node;
    forall route | t.Leads(node, route) && route != [] && route[0] >= 0
      ensures t.NodeAt(node, route) !in active + {node}
    {
      LeadsBelow(t, node, route);
      assert node in t.Passed(node, route);
    }
  }

  lemma {:induction false} WalkComplete(t: Tree, node: nat, prefix: seq<Byte>, active: set<nat>, f: Found)
    requires Acyclic(t, node, active) && AgreesFrom(t, node, 0, prefix, f.leaves) && Unambiguous(t, node)
    ensures Walk(t, node, prefix, active, f).Ok?
    decreases |Free(t.blob, active)|, 1, 0
  {
    AcyclicClear(t, node, active);
    FreeShrinks(t.blob, active, node);
    RecordsComplete(t, node, 0, prefix, active + {node}, f.(nodes := f.nodes + {node}));
  }

  lemma ClearLater(t: Tree, node: nat, i: nat, active: set<nat>)
    requires ClearFrom(t, node, i, active)
    ensures ClearFrom(t, node, i + 1, active)
  {
  }

  lemma {:induction false} RecordsComplete(t: Tree, node: nat, i: nat, prefix: seq<Byte>, active: set<nat>, f: Found)
    requires t.Sound(node) && i <= t.Count(node) && ClearFrom(t, node, i, active)
    requires AgreesFrom(t, node, i, prefix, f.leaves) && Unambiguous(t, node)
    ensures Records(t, node, i, prefix, active, f).Ok?
    decreases |Free(t.blob, active)|, 2, t.Count(node) - i
  {
    hide ClearFrom, AgreesFrom, Unambiguous, Acyclic, Truthful, Free;
    if i < t.Count(node) {
      var target, path := t.To(node, i), prefix + t.Segment(node, i);
      ClearLater(t, node, i, active);
      if IsLeaf(target) {
        AgreesAfterLeaf(t, node, i, prefix, f.leaves);
        RecordsComplete(t, node, i + 1, prefix, active, f.(leaves := f.leaves[LeafIndex(target) := path]));
      } else {
        ClearBelow(t, node, i, active);
        AgreesBelow(t, node, i, prefix, f.leaves);
        UnambiguousBelow(t, node, i);
        WalkComplete(t, target, path, active, f);
        WalkTruthful(t, target, path, active, f);
        AgreesAfterNode(t, node, i, prefix, f.leaves, Walk(t, target, path, active, f).found.leaves);
        RecordsComplete(t, node, i + 1, prefix, active, Walk(t, target, path, active, f).found);
      }
    }
  }

  // ---------------------------------------------------------------- the theorem

  ghost predicate Reached(t: Tree, e: nat) {
    exists r :: t.Spells(0, r) && t.EntryOf(0, r) == e
  }

  /**
   * A tree worth indexing: acyclic and sound wherever it leads, every leaf in range,
   * every entry spelled in one way.
   */
  ghost predicate WellFormed(t: Tree) {
    && Acyclic(t, 0, {}) && Unambiguous(t, 0)
    && (forall r | t.Spells(0, r) :: t.EntryOf(0, r) < t.entries)
    && forall e: nat | e < t.entries :: Reached(t, e)
  }

  /** The parser terminates on every blob, and accepts exactly the well-formed trees. */
  lemma ParserAcceptsExactlyWellFormed(t: Tree)
    ensures ParseTree(t).Ok? <==> WellFormed(t)
  {
    if ParseTree(t).Ok? {
      ParsedIsWellFormed(t);
    }
    if WellFormed(t) {
      WellFormedParses(t);
    }
  }

  lemma ParsedIsWellFormed(t: Tree)
    requires ParseTree(t).Ok?
    ensures WellFormed(t)
  {
    var f := Found(map[], {});
    WalkTruthful(t, 0, [], {}, f);
    WalkClear(t, 0, [], {}, f);
    hide Walk, Acyclic;
    var leaves := Walk(t, 0, [], {}, f).found.leaves;
    forall r | t.Spells(0, r)
      ensures t.EntryOf(0, r) < t.entries && t.EntryOf(0, r) in leaves && leaves[t.EntryOf(0, r)] == t.Text(0, r)
    {
      assert r[0] >= 0;
      assert [] + t.Text(0, r) == t.Text(0, r);
    }
    forall e: nat | e < t.entries
      ensures Reached(t, e)
    {
      assert Spelled(t, 0, 0, [], e, leaves[e]);
    }
  }

  lemma WellFormedParses(t: Tree)
    requires WellFormed(t)
    ensures ParseTree(t).Ok?
  {
    var f := Found(map[], {});
    assert AgreesFrom(t, 0, 0, [], f.leaves);
    WalkComplete(t, 0, [], {}, f);
    WalkTruthful(t, 0, [], {}, f);
    WellFormedLeaves(t, Walk(t, 0, [], {}, f).found.leaves);
    hide Walk, WellFormed, AllLeaves;
  }

  lemma WellFormedLeaves(t: Tree, leaves: map<nat, seq<Byte>>)
    requires WellFormed(t) && Truthful(t, 0, 0, [], map[], leaves)
    ensures AllLeaves(leaves, t.entries)
  {
    hide Acyclic, Unambiguous;
    forall e: nat | e < t.entries
      ensures e in leaves
    {
      assert Reached(t, e);
      var r :| t.Spells(0, r) && t.EntryOf(0, r) == e;
      assert r[0] >= 0;
    }
    forall e | e in leaves
      ensures e < t.entries
    {
      assert Spelled(t, 0, 0, [], e, leaves[e]);
    }
  }

  /** What the parser returns is the one text that every route to an entry spells. */
  lemma ParsedPaths(t: Tree, r: seq<nat>)
    requires ParseTree(t).Ok? && t.Spells(0, r)
    ensures t.EntryOf(0, r) in ParseTree(t).found.leaves
    ensures ParseTree(t).found.leaves[t.EntryOf(0, r)] == t.Text(0, r)
  {
    WalkTruthful(t, 0, [], {}, Found(map[], {}));
    hide Walk;
    assert r[0] >= 0;
    assert [] + t.Text(0, r) == t.Text(0, r);
  }

  // ---------------------------------------------------------------- the nodes counted

  ghost predicate Visited(t: Tree, node: nat, i: nat, m: nat) {
    exists route :: t.Leads(node, route) && route != [] && route[0] >= i && t.NodeAt(node, route) == m
  }

  /** The recorded nodes grow by exactly the nodes that routes from record i on lead to. */
  ghost predicate Counted(t: Tree, node: nat, i: nat, old_: set<nat>, new_: set<nat>) {
    && old_ <= new_
    && (forall route | t.Leads(node, route) && route != [] && route[0] >= i :: t.NodeAt(node, route) in new_)
    && forall m <- new_ :: m in old_ || Visited(t, node, i, m)
  }

  lemma CountedNode(t: Tree, node: nat, i: nat, old_: set<nat>, mid: set<nat>, new_: set<nat>)
    requires t.Has(node, i) && !IsLeaf(t.To(node, i))
    requires Counted(t, t.To(node, i), 0, old_ + {t.To(node, i)}, mid) && Counted(t, node, i + 1, mid, new_)
    ensures Counted(t, node, i, old_, new_)
  {
    var target := t.To(node, i);
    forall route | t.Leads(node, route) && route != [] && route[0] >= i
      ensures t.NodeAt(node, route) in new_
    {
      if route[0] == i {
        LeadsBelow(t, node, route);
        if route[1..] == [] {
          assert t.NodeAt(target, []) == target;
        }
      }
    }
    forall m | m in new_
      ensures m in old_ || Visited(t, node, i, m)
    {
      if m !in mid {
        var route :| t.Leads(node, route) && route != [] && route[0] >= i + 1 && t.NodeAt(node, route) == m;
      } else if m == target {
        LeadsAbove(t, node, i, []);
        assert ([i] + [])[0] >= i;
      } else if m !in old_ {
        var q :| t.Leads(target, q) && q != [] && q[0] >= 0 && t.NodeAt(target, q) == m;
        LeadsAbove(t, node, i, q);
        assert ([i] + q)[0] >= i;
      }
    }
  }

  lemma CountedLeaf(t: Tree, node: nat, i: nat, old_: set<nat>, new_: set<nat>)
    requires t.Has(node, i) && IsLeaf(t.To(node, i)) && Counted(t, node, i + 1, old_, new_)
    ensures Counted(t, node, i, old_, new_)
  {
  }

  lemma {:induction false} WalkCount(t: Tree, node: nat, prefix: seq<Byte>, active: set<nat>, f: Found)
    requires Walk(t, node, prefix, active, f).Ok?
    ensures t.Sound(node) && Counted(t, node, 0, f.nodes + {node}, Walk(t, node, prefix, active, f).found.nodes)
    decreases |Free(t.blob, active)|, 1, 0
  {
    FreeShrinks(t.blob, active, node);
    RecordsCount(t, node, 0, prefix, active + {node}, f.(nodes := f.nodes + {node}));
  }

  lemma {:induction false} RecordsCount(t: Tree, node: nat, i: nat, prefix: seq<Byte>, active: set<nat>, f: Found)
    requires t.Sound(node) && i <= t.Count(node) && Records(t, node, i, prefix, active, f).Ok?
    ensures Counted(t, node, i, f.nodes, Records(t, node, i, prefix, active, f).found.nodes)
    decreases |Free(t.blob, active)|, 2, t.Count(node) - i
  {
    hide Free, Counted;
    if i == t.Count(node) {
      CountedEnd(t, node, f.nodes);
    } else {
      var target, path := t.To(node, i), prefix + t.Segment(node, i);
      var last := Records(t, node, i, prefix, active, f).found.nodes;
      if IsLeaf(target) {
        RecordsCount(t, node, i + 1, prefix, active, f.(leaves := f.leaves[LeafIndex(target) := path]));
        CountedLeaf(t, node, i, f.nodes, last);
      } else {
        var g := Walk(t, target, path, active, f).found;
        WalkCount(t, target, path, active, f);
        RecordsCount(t, node, i + 1, prefix, active, g);
        CountedNode(t, node, i, f.nodes, g.nodes, last);
      }
    }
  }

  lemma CountedEnd(t: Tree, node: nat, nodes: set<nat>)
    requires t.Sound(node)
    ensures Counted(t, node, t.Count(node), nodes, nodes)
  {
  }

  ghost predicate Reachable(t: Tree, m: nat) {
    exists route :: t.Leads(0, route) && t.NodeAt(0, route) == m
  }

  lemma CountedReaches(t: Tree, nodes: set<nat>, m: nat)
    requires Counted(t, 0, 0, {0}, nodes)
    ensures m in nodes <==> Reachable(t, m)
  {
    assert t.Leads(0, []) && t.NodeAt(0, []) == 0;
    if Reachable(t, m) {
      var route :| t.Leads(0, route) && t.NodeAt(0, route) == m;
      if route != [] {
        assert route[0] >= 0;
      }
    }
    if m in nodes && m != 0 {
      assert Visited(t, 0, 0, m);
    }
  }

  /** The node count reported is that of the nodes reachable from the root, shared ones counted once. */
  lemma ParsedNodes(t: Tree, m: nat)
    requires ParseTree(t).Ok?
    ensures m in ParseTree(t).found.nodes <==> Reachable(t, m)
  {
    WalkCount(t, 0, [], {}, Found(map[], {}));
    hide Walk, Counted, Reachable;
    assert {} + {0} == {0};
    CountedReaches(t, ParseTree(t).found.nodes, m);
  }

  // ---------------------------------------------------------------- the reader

  class TreeReader {
    const tree: Tree
    var leaves: map<nat, seq<Byte>>
    var activeOffsets: set<nat>
    var nodeOffsets: set<nat>

    ghost function View(): Found
      reads this
    {
      Found(leaves, nodeOffsets)
    }

    constructor (tree: Tree)
      ensures this.tree == tree && View() == Found(map[], {}) && activeOffsets == {}
    {
      this.tree, leaves, activeOffsets, nodeOffsets := tree, map[], {}, {};
    }

    /** Read a node and everything below it; None when the tree is fine so far. */
    method WalkNode(node: nat, prefix: seq<Byte>) returns (failure: Walked)
      modifies this
      ensures failure.Ok? ==> failure.found == View() && activeOffsets == old(activeOffsets)
      ensures failure == Walk(tree, node, prefix, old(activeOffsets), old(View()))
      decreases |Free(tree.blob, activeOffsets)|
    {
      if node in activeOffsets {
        return Failed(Cycle);
      }
      if node + 4 > |tree.blob| {
        return Failed(Outside);
      }
      var count := U32(tree.blob, node);
      if count > tree.entries || node + 4 + count * RECORD > |tree.blob| {
        return Failed(BadNode);
      }
      assert tree.Sound(node) && tree.Count(node) == count;
      ghost var above, result := activeOffsets, Walk(tree, node, prefix, activeOffsets, View());
      FreeShrinks(tree.blob, activeOffsets, node);
      hide Free;
      activeOffsets := activeOffsets + {node};
      nodeOffsets := nodeOffsets + {node};
      var i := 0;
      while i < count
        invariant i <= count && activeOffsets == above + {node}
        invariant Records(tree, node, i, prefix, above + {node}, View()) == result
      {
        var target, path := tree.To(node, i), prefix + tree.Segment(node, i);
        if IsLeaf(target) {
          var e := LeafIndex(target);
          if e >= tree.entries {
            return Failed(BadIndex);
          }
          if e in leaves && leaves[e] != path {
            return Failed(Conflict);
          }
          leaves := leaves[e := path];
        } else {
          var below := WalkNode(target, path);
          if below.Failed? {
            return below;
          }
        }
        i := i + 1;
      }
      activeOffsets := activeOffsets - {node};
      assert activeOffsets == above;
      failure := Ok(Found(leaves, nodeOffsets));
    }

    method Parse() returns (result: Walked)
      requires View() == Found(map[], {}) && activeOffsets == {}
      modifies this
      ensures result == ParseTree(tree)
    {
      hide Walk;
      result := WalkNode(0, []);
      if result.Ok? && !AllLeaves(leaves, tree.entries) {
        result := Failed(Mismatch);
      }
    }
  }
}
