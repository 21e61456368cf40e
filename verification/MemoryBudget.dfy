/** The shared buffer budget of the public service and the outgoing queue of an engine that reserves from it. */
module MemoryBudget {
  import opened MapSums

  datatype Option<+T> = None | Some(value: T)

  type Owner = nat

  /** A reservation is grouped under a named account, or on its own when no group is given. */
  datatype Group = Account(uid: nat) | Own(owner: Owner)

  /** perGroup 0 stands for a budget without a per-group limit. */
  datatype Accounts = Accounts(
    limit: nat, perGroup: nat, used: int, peak: int,
    owners: map<Owner, nat>, groups: map<Owner, Group>, groupUsed: map<Group, nat>)

  function Empty(limit: nat, perGroup: nat): Accounts {
    Accounts(limit, perGroup, 0, 0, map[], map[], map[])
  }

  datatype SetResult = Set(after: Accounts) | NegativeSize | GlobalBudget | GroupBudget

  function GroupFor(a: Accounts, owner: Owner, group: Option<Group>): Group {
    if owner in a.groups then a.groups[owner] else if group.Some? then group.value else Own(owner)
  }

  function Max(a: int, b: int): int {
    if a < b then b else a
  }

  /** MemoryBudget.set */
  function SetSize(a: Accounts, owner: Owner, size: int, group: Option<Group>): SetResult {
    if size < 0 then NegativeSize
    else
      var previous, g := At(a.owners, owner), GroupFor(a, owner, group);
      var groupSize := At(a.groupUsed, g) - previous + size;
      if a.used - previous + size > a.limit then GlobalBudget
      else if a.perGroup > 0 && groupSize > a.perGroup then GroupBudget
      else
        var used := a.used - previous + size;
        Set(Accounts(
          a.limit, a.perGroup, used, Max(a.peak, used),
          if size > 0 then a.owners[owner := size] else a.owners - {owner},
          if size > 0 then a.groups[owner := g] else a.groups - {owner},
          if groupSize > 0 then a.groupUsed[g := groupSize] else a.groupUsed - {g}))
  }

  // ---------------------------------------------------------------- accounting

  ghost function MembersOf(a: Accounts, g: Group): map<Owner, nat> {
    map o | o in a.owners && o in a.groups && a.groups[o] == g :: a.owners[o]
  }

  ghost predicate Balanced(a: Accounts) {
    && a.used == Total(a.owners) && a.used <= a.limit
    && a.owners.Keys == a.groups.Keys
    && (forall o | o in a.owners :: a.owners[o] > 0)
    && (forall g :: At(a.groupUsed, g) == Total(MembersOf(a, g)))
    && (forall g | g in a.groupUsed :: a.groupUsed[g] > 0 && (a.perGroup > 0 ==> a.groupUsed[g] <= a.perGroup))
    && a.used == Total(a.groupUsed)
    && a.used <= a.peak
  }

  lemma EmptyBalanced(limit: nat, perGroup: nat)
    ensures Balanced(Empty(limit, perGroup))
  {
    var a := Empty(limit, perGroup);
    forall g: Group
      ensures At(a.groupUsed, g) == Total(MembersOf(a, g))
    {
      assert MembersOf(a, g) == map[];
    }
  }

  lemma GroupShare(a: Accounts, owner: Owner)
    requires Balanced(a) && owner in a.owners
    ensures a.owners[owner] <= At(a.groupUsed, a.groups[owner])
  {
    AtMostTotal(MembersOf(a, a.groups[owner]), owner);
  }

  /** Taking the previous reservation out never makes a total negative. */
  lemma RoomForPrevious(a: Accounts, owner: Owner, group: Option<Group>)
    requires Balanced(a)
    ensures At(a.owners, owner) <= At(a.groupUsed, GroupFor(a, owner, group))
    ensures At(a.owners, owner) <= a.used
  {
    AtMostTotal(a.owners, owner);
    if owner in a.owners {
      GroupShare(a, owner);
    }
  }

  /** How a set changes the reservations of each group. */
  lemma MembersAfter(a: Accounts, owner: Owner, size: nat, group: Option<Group>, h: Group)
    requires a.owners.Keys == a.groups.Keys && SetSize(a, owner, size, group).Set?
    ensures var m, n := MembersOf(a, h), MembersOf(SetSize(a, owner, size, group).after, h);
      && (h != GroupFor(a, owner, group) ==> n == m)
      && (h == GroupFor(a, owner, group) ==> n == (if size > 0 then m[owner := size] else m - {owner})
                                              && At(m, owner) == At(a.owners, owner))
  {
    var b, g := SetSize(a, owner, size, group).after, GroupFor(a, owner, group);
    var m, n := MembersOf(a, h), MembersOf(b, h);
    forall o | o != owner
      ensures (o in n <==> o in m) && (o in m ==> n[o] == m[o])
    {
    }
    assert owner in n <==> size > 0 && h == g;
    assert owner in m ==> h == g;
  }

  lemma SetGroupTotals(a: Accounts, owner: Owner, size: nat, group: Option<Group>, h: Group)
    requires Balanced(a) && SetSize(a, owner, size, group).Set?
    ensures var b := SetSize(a, owner, size, group).after;
      At(b.groupUsed, h) == Total(MembersOf(b, h))
  {
    RoomForPrevious(a, owner, group);
    MembersAfter(a, owner, size, group, h);
    var g := GroupFor(a, owner, group);
    var m := MembersOf(a, h);
    assert At(a.groupUsed, h) == Total(m);
    hide Balanced, MembersOf, Total;
    if h == g {
      PutOrDrop(m, owner, size);
    }
  }

  lemma PutOrDrop<K>(m: map<K, nat>, k: K, v: nat)
    ensures Total(if v > 0 then m[k := v] else m - {k}) == Total(m) - At(m, k) + v
  {
    TotalPut(m, k, v);
    TotalDrop(m, k);
  }

  /** A set that is not refused keeps the totals, per owner and per group, and both limits. */
  lemma SetKeepsBalanced(a: Accounts, owner: Owner, size: int, group: Option<Group>)
    requires Balanced(a) && SetSize(a, owner, size, group).Set?
    ensures Balanced(SetSize(a, owner, size, group).after)
  {
    var b := SetSize(a, owner, size, group).after;
    var g := GroupFor(a, owner, group);
    RoomForPrevious(a, owner, group);
    PutOrDrop(a.owners, owner, size);
    PutOrDrop(a.groupUsed, g, At(a.groupUsed, g) - At(a.owners, owner) + size);
    assert b.used == Total(b.owners) && b.used == Total(b.groupUsed);
    forall h: Group
      ensures At(b.groupUsed, h) == Total(MembersOf(b, h))
    {
      SetGroupTotals(a, owner, size, group, h);
    }
  }

  /** A reservation that does not grow is never refused; in particular release, a set to zero, never fails. */
  lemma ShrinkSucceeds(a: Accounts, owner: Owner, size: nat, group: Option<Group>)
    requires Balanced(a) && size <= At(a.owners, owner)
    ensures SetSize(a, owner, size, group).Set?
  {
    if owner in a.owners {
      GroupShare(a, owner);
      assert a.groups[owner] in a.groupUsed;
    } else {
      assert At(a.groupUsed, GroupFor(a, owner, group)) <= if a.perGroup > 0 then a.perGroup else a.used by {
        AtMostTotal(a.groupUsed, GroupFor(a, owner, group));
      }
    }
  }

  /** Exactly when a reservation is refused. */
  lemma RefusedIff(a: Accounts, owner: Owner, size: nat, group: Option<Group>)
    requires Balanced(a)
    ensures SetSize(a, owner, size, group).Set? <==>
            && Total(a.owners) - At(a.owners, owner) + size <= a.limit
            && (a.perGroup > 0 ==>
                  Total(MembersOf(a, GroupFor(a, owner, group))) - At(a.owners, owner) + size <= a.perGroup)
  {
    assert At(a.groupUsed, GroupFor(a, owner, group)) == Total(MembersOf(a, GroupFor(a, owner, group)));
  }

  /** A set touches no other owner. */
  lemma SetEffect(a: Accounts, owner: Owner, size: nat, group: Option<Group>)
    requires SetSize(a, owner, size, group).Set?
    ensures var b := SetSize(a, owner, size, group).after;
      At(b.owners, owner) == size && forall o | o != owner :: At(b.owners, o) == At(a.owners, o)
  {
  }

  class MemoryBudget {
    const limit: nat
    const perGroup: nat
    var used: int
    var peak: int
    var owners: map<Owner, nat>
    var groups: map<Owner, Group>
    var groupUsed: map<Group, nat>

    ghost function View(): Accounts
      reads this
    {
      Accounts(limit, perGroup, used, peak, owners, groups, groupUsed)
    }

    ghost predicate Valid()
      reads this
    {
      Balanced(View())
    }

    constructor (limit: nat, perGroup: nat)
      ensures Valid() && View() == Empty(limit, perGroup)
    {
      this.limit, this.perGroup := limit, perGroup;
      used, peak, owners, groups, groupUsed := 0, 0, map[], map[], map[];
      new;
      EmptyBalanced(limit, perGroup);
    }

    method SetReservation(owner: Owner, size: int, group: Option<Group>) returns (ok: bool)
      requires Valid()
      modifies this
      ensures Valid()
      ensures var r := SetSize(old(View()), owner, size, group);
        && (r.Set? ==> ok && View() == r.after)
        && (!r.Set? ==> !ok && View() == old(View()))
    {
      hide Balanced;
      if size < 0 {
        return false;
      }
      var previous := At(owners, owner);
      var g := if owner in groups then groups[owner] else if group.Some? then group.value else Own(owner);
      if used - previous + size > limit {
        return false;
      }
      if perGroup > 0 && At(groupUsed, g) - previous + size > perGroup {
        return false;
      }
      SetKeepsBalanced(View(), owner, size, group);
      RoomForPrevious(View(), owner, group);
      Charge(g, size - previous);
      BookOwner(owner, size, g);
      ok := true;
    }

    method Charge(g: Group, delta: int)
      requires used + delta >= 0 && At(groupUsed, g) + delta >= 0
      modifies this`used, this`peak, this`groupUsed
      ensures used == old(used) + delta && peak == Max(old(peak), used)
      ensures groupUsed == if At(old(groupUsed), g) + delta > 0 then old(groupUsed)[g := At(old(groupUsed), g) + delta]
                           else old(groupUsed) - {g}
    {
      used := used + delta;
      peak := Max(peak, used);
      ghost var before := groupUsed;
      groupUsed := groupUsed[g := At(groupUsed, g) + delta];
      if groupUsed[g] == 0 {
        groupUsed := groupUsed - {g};
        assert groupUsed == before - {g};
      }
    }

    method BookOwner(owner: Owner, size: nat, g: Group)
      modifies this`owners, this`groups
      ensures owners == if size > 0 then old(owners)[owner := size] else old(owners) - {owner}
      ensures groups == if size > 0 then old(groups)[owner := g] else old(groups) - {owner}
    {
      if size > 0 {
        owners, groups := owners[owner := size], groups[owner := g];
      } else {
        owners, groups := owners - {owner}, groups - {owner};
      }
    }

    method Release(owner: Owner)
      requires Valid()
      modifies this
      ensures Valid() && View() == SetSize(old(View()), owner, 0, None).after
      ensures owner !in owners && (forall o | o != owner :: At(owners, o) == At(old(owners), o))
    {
      ShrinkSucceeds(View(), owner, 0, None);
      var ok := SetReservation(owner, 0, None);
    }
  }

  // ---------------------------------------------------------------- the engine's outgoing queue

  datatype Message = Message(id: nat, size: nat)

  const DEFAULT_CAP: nat := 2 * 1024 * 1024
  const QUEUE_LIMIT: nat := 1024
  const OVERHEAD: nat := 24
  const CAPTURE_LIMIT: nat := 32

  function Bytes(ms: seq<Message>): nat {
    if ms == [] then 0 else ms[0].size + Bytes(ms[1..])
  }

  lemma {:induction false} BytesAppend(a: seq<Message>, b: seq<Message>)
    ensures Bytes(a + b) == Bytes(a) + Bytes(b)
  {
    if a == [] {
      assert a + b == b;
    } else {
      assert (a + b)[1..] == a[1..] + b;
      BytesAppend(a[1..], b);
    }
  }

  function Without(ms: seq<Message>, id: nat): (out: seq<Message>) {
    if ms == [] then [] else (if ms[0].id == id then [] else [ms[0]]) + Without(ms[1..], id)
  }

  /** What one appended message adds. */
  lemma {:induction false} WithoutLast(ms: seq<Message>, m: Message, id: nat)
    ensures Without(ms + [m], id) == Without(ms, id) + if m.id == id then [] else [m]
  {
    if ms == [] {
      assert ms + [m] == [m] && [m][1..] == [];
    } else {
      assert (ms + [m])[1..] == ms[1..] + [m];
      WithoutLast(ms[1..], m, id);
    }
  }

  lemma {:induction false} WithoutShrinks(ms: seq<Message>, id: nat)
    ensures Bytes(Without(ms, id)) <= Bytes(ms) && |Without(ms, id)| <= |ms|
  {
    if ms != [] {
      WithoutShrinks(ms[1..], id);
      BytesAppend(if ms[0].id == id then [] else [ms[0]], Without(ms[1..], id));
    }
  }

  function Cost(ms: seq<Message>): nat {
    Bytes(ms) + OVERHEAD * |ms|
  }

  class Engine {
    const id: Owner
    const uid: nat
    const cap: nat
    const budget: MemoryBudget
    var pending: seq<Message>
    var pendingBytes: nat
    var failed: bool
    var capture: Option<seq<Message>>

    /** The reservation is the cost of the queue, and a failed engine holds neither. */
    ghost predicate Valid()
      reads this, budget
    {
      && budget.Valid()
      && pendingBytes == Bytes(pending)
      && At(budget.owners, id) == Cost(pending)
      && (failed ==> pending == [])
      && |pending| <= QUEUE_LIMIT && (pending != [] ==> pendingBytes <= cap)
    }

    ghost predicate OthersUnchanged(before: map<Owner, nat>)
      reads budget
    {
      forall o | o != id :: At(budget.owners, o) == At(before, o)
    }

    constructor (id: Owner, uid: nat, cap: nat, budget: MemoryBudget)
      requires budget.Valid() && id !in budget.owners
      ensures Valid() && this.id == id && this.uid == uid && this.cap == cap && this.budget == budget
      ensures pending == [] && !failed && capture == None
    {
      this.id, this.uid, this.cap, this.budget := id, uid, cap, budget;
      pending, pendingBytes, failed, capture := [], 0, false, None;
    }

    method Fail()
      requires budget.Valid()
      modifies this`pending, this`pendingBytes, this`failed, budget
      ensures Valid() && failed && pending == [] && OthersUnchanged(old(budget.owners))
    {
      failed, pending, pendingBytes := true, [], 0;
      budget.Release(id);
    }

    /** enqueue; false where the source raises inside a capture. A slow recipient fails, never the sender. */
    method Enqueue(m: Message) returns (ok: bool)
      requires Valid()
      modifies this, budget
      ensures Valid() && OthersUnchanged(old(budget.owners))
      ensures old(capture).Some? ==>
                && unchanged(budget) && pending == old(pending) && failed == old(failed)
                && ok == (m.id == 8071 && m.size <= 334 && |old(capture).value| < CAPTURE_LIMIT)
                && capture == if ok then Some(old(capture).value + [m]) else old(capture)
      ensures old(capture).None? ==> ok && capture == None
      ensures old(capture).None? && old(failed) ==> failed && unchanged(budget)
      ensures old(capture).None? && !old(failed) ==>
                var cost := Cost(old(pending)) + m.size + OVERHEAD;
                if |old(pending)| < QUEUE_LIMIT && old(pendingBytes) + m.size <= cap
                   && SetSize(old(budget.View()), id, cost, Some(Account(uid))).Set?
                then pending == old(pending) + [m] && !failed
                else failed
    {
      if capture.Some? {
        if m.id != 8071 || m.size > 334 || |capture.value| >= CAPTURE_LIMIT {
          return false;
        }
        capture := Some(capture.value + [m]);
        return true;
      }
      ok := true;
      if failed {
        return;
      }
      if |pending| >= QUEUE_LIMIT || pendingBytes + m.size > cap {
        Fail();
        return;
      }
      var reserved := budget.SetReservation(id, pendingBytes + m.size + OVERHEAD * (|pending| + 1), Some(Account(uid)));
      if !reserved {
        Fail();
        return;
      }
      BytesAppend(pending, [m]);
      pending := pending + [m];
      pendingBytes := pendingBytes + m.size;
    }

    /** take_pending; `current` says whether the asking connection is the engine's game connection. */
    method TakePending(current: bool) returns (out: seq<Message>)
      requires Valid()
      modifies this, budget
      ensures Valid() && OthersUnchanged(old(budget.owners)) && failed == old(failed)
      ensures !current ==> out == [] && unchanged(this) && unchanged(budget)
      ensures current && old(capture).Some? ==>
                out == old(capture).value && capture == Some([]) && pending == old(pending) && unchanged(budget)
      ensures current && old(capture).None? ==> out == old(pending) && pending == [] && At(budget.owners, id) == 0
    {
      if !current {
        return [];
      }
      if capture.Some? {
        out := capture.value;
        capture := Some([]);
        return;
      }
      out := pending;
      pending, pendingBytes := [], 0;
      budget.Release(id);
    }

    /** cancel_pending: the smaller reservation cannot be refused. */
    method CancelPending(ident: nat)
      requires Valid()
      modifies this, budget
      ensures Valid() && OthersUnchanged(old(budget.owners))
      ensures pending == Without(old(pending), ident) && failed == old(failed) && capture == old(capture)
    {
      hide Balanced, SetSize, Bytes, Without;
      WithoutShrinks(pending, ident);
      var kept := Filter(ident);
      ShrinkSucceeds(budget.View(), id, Cost(kept), Some(Account(uid)));
      SetEffect(budget.View(), id, Cost(kept), Some(Account(uid)));
      pending := kept;
      pendingBytes := SumSizes(kept);
      var ok := budget.SetReservation(id, pendingBytes + OVERHEAD * |pending|, Some(Account(uid)));
      assert ok;
    }

    method Filter(ident: nat) returns (kept: seq<Message>)
      ensures kept == Without(pending, ident)
    {
      kept := [];
      var i := 0;
      while i < |pending|
        invariant i <= |pending|
        invariant kept == Without(pending[..i], ident)
      {
        hide Without;
        WithoutLast(pending[..i], pending[i], ident);
        assert pending[..i + 1] == pending[..i] + [pending[i]];
        if pending[i].id != ident {
          kept := kept + [pending[i]];
        }
        i := i + 1;
      }
      assert pending[..i] == pending;
    }

    static method SumSizes(ms: seq<Message>) returns (n: nat)
      ensures n == Bytes(ms)
    {
      n := 0;
      var i := 0;
      assert ms[0..] == ms;
      while i < |ms|
        invariant i <= |ms| && n + Bytes(ms[i..]) == Bytes(ms)
      {
        assert ms[i..][1..] == ms[i + 1..];
        n := n + ms[i].size;
        i := i + 1;
      }
    }

    /** The queue part of disconnect, on the engine's game connection. */
    method DisconnectGame()
      requires Valid()
      modifies this, budget
      ensures Valid() && OthersUnchanged(old(budget.owners))
      ensures pending == [] && At(budget.owners, id) == 0 && failed == old(failed)
    {
      pending, pendingBytes := [], 0;
      budget.Release(id);
    }
  }
}
