/**
 * Connection admission by leases: every counter of the shared budget equals the number
 * of open leases it stands for.
 */
module ConnectionLeases {

  datatype Option<+T> = None | Some(value: T)

  type Peer = nat
  type Uid = nat

  datatype Outcome = Ok | ServerBusy | ClosedConnection | IdentityChanged

  /** An open lease: its peer, and its account once it has been promoted. */
  datatype Grant = Grant(peer: Peer, uid: Option<Uid>)

  function Count(m: map<Peer, nat>, k: nat): nat {
    if k in m then m[k] else 0
  }

  /** Counter arithmetic of the source: a count that reaches zero leaves the map. */
  function Increment(m: map<nat, nat>, k: nat): map<nat, nat> {
    m[k := Count(m, k) + 1]
  }

  function Decrement(m: map<nat, nat>, k: nat): map<nat, nat>
    requires k in m && m[k] > 0
  {
    if m[k] == 1 then m - {k} else m[k := m[k] - 1]
  }

  ghost predicate Within(m: map<nat, nat>, limit: nat) {
    forall k :: Count(m, k) <= limit
  }

  lemma IncrementWithin(m: map<nat, nat>, k: nat, limit: nat)
    requires Within(m, limit) && Count(m, k) < limit
    ensures Within(Increment(m, k), limit)
  {
    forall j ensures Count(Increment(m, k), j) <= limit {
      assert Count(m, j) <= limit;
    }
  }

  lemma DecrementWithin(m: map<nat, nat>, k: nat, limit: nat)
    requires Within(m, limit) && k in m && m[k] > 0
    ensures Within(Decrement(m, k), limit)
  {
    forall j ensures Count(Decrement(m, k), j) <= limit {
      assert Count(m, j) <= limit;
    }
  }

  ghost function PendingOf(open: map<Lease, Grant>, peer: Peer): set<Lease> {
    set l | l in open && open[l].uid.None? && open[l].peer == peer
  }

  ghost function ActiveOf(open: map<Lease, Grant>, uid: Uid): set<Lease> {
    set l | l in open && open[l].uid == Some(uid)
  }

  ghost function AllPending(open: map<Lease, Grant>): set<Lease> {
    set l | l in open && open[l].uid.None?
  }

  ghost function AllActive(open: map<Lease, Grant>): set<Lease> {
    set l | l in open && open[l].uid.Some?
  }

  datatype Counters = Counters(pending: int, active: int, byIp: map<Peer, nat>, byUid: map<Uid, nat>)

  function Plus(c: Counters, g: Grant): Counters {
    match g.uid
    case None => c.(pending := c.pending + 1, byIp := Increment(c.byIp, g.peer))
    case Some(u) => c.(active := c.active + 1, byUid := Increment(c.byUid, u))
  }

  function Minus(c: Counters, g: Grant): Counters
    requires match g.uid case None => Count(c.byIp, g.peer) > 0 case Some(u) => Count(c.byUid, u) > 0
  {
    match g.uid
    case None => c.(pending := c.pending - 1, byIp := Decrement(c.byIp, g.peer))
    case Some(u) => c.(active := c.active - 1, byUid := Decrement(c.byUid, u))
  }

  /** Every counter is the number of open leases it stands for. */
  ghost predicate Counts(c: Counters, open: map<Lease, Grant>) {
    && c.pending == |AllPending(open)|
    && c.active == |AllActive(open)|
    && (forall p: Peer :: Count(c.byIp, p) == |PendingOf(open, p)|)
    && (forall u: Uid :: Count(c.byUid, u) == |ActiveOf(open, u)|)
    && (forall p | p in c.byIp :: c.byIp[p] > 0)
    && (forall u | u in c.byUid :: c.byUid[u] > 0)
  }

  class ConnectionBudget {
    const pendingLimit: nat
    const perIpLimit: nat
    const activeLimit: nat
    const perUidLimit: nat
    var pending: int
    var active: int
    var byIp: map<Peer, nat>
    var byUid: map<Uid, nat>
    ghost var open: map<Lease, Grant>

    ghost function View(): Counters
      reads this
    {
      Counters(pending, active, byIp, byUid)
    }

    ghost predicate Valid()
      reads this
    {
      && Counts(View(), open)
      && pending <= pendingLimit && active <= activeLimit
      && Within(byIp, perIpLimit) && Within(byUid, perUidLimit)
    }

    constructor (pendingLimit: nat, perIpLimit: nat, activeLimit: nat, perUidLimit: nat)
      ensures Valid() && open == map[] && pending == active == 0 && byIp == byUid == map[]
      ensures this.pendingLimit == pendingLimit && this.perIpLimit == perIpLimit
      ensures this.activeLimit == activeLimit && this.perUidLimit == perUidLimit
    {
      this.pendingLimit, this.perIpLimit, this.activeLimit, this.perUidLimit :=
        pendingLimit, perIpLimit, activeLimit, perUidLimit;
      pending, active, byIp, byUid, open := 0, 0, map[], map[], map[];
      new;
      NoLeases(open);
    }

    /** acquire: refused exactly when the pending total or the peer's pending count is at its limit. */
    method Acquire(peer: Peer) returns (lease: Lease?)
      requires Valid()
      modifies this
      ensures Valid()
      ensures lease == null <==>
              |AllPending(old(open))| >= pendingLimit || |PendingOf(old(open), peer)| >= perIpLimit
      ensures lease == null ==> unchanged(this)
      ensures lease != null ==>
                && fresh(lease) && lease.budget == this && lease.peer == peer && lease.Matches()
                && open == old(open)[lease := Grant(peer, None)]
    {
      assert pending == |AllPending(open)| && Count(byIp, peer) == |PendingOf(open, peer)|;
      hide Counts, AllPending, PendingOf;
      if pending >= pendingLimit || Count(byIp, peer) >= perIpLimit {
        return null;
      }
      pending := pending + 1;
      IncrementWithin(byIp, peer, perIpLimit);
      byIp := Increment(byIp, peer);
      var l := new Lease(this, peer);
      AddLease(old(View()), open, l, Grant(peer, None));
      open := open[l := Grant(peer, None)];
      assert View() == Plus(old(View()), Grant(peer, None));
      lease := l;
    }
  }

  class Lease {
    const budget: ConnectionBudget
    const peer: Peer
    var uid: Option<Uid>
    var closed: bool

    /** The lease's own fields agree with the budget's record of it. */
    ghost predicate Matches()
      reads this, budget
    {
      if closed then this !in budget.open else this in budget.open && budget.open[this] == Grant(peer, uid)
    }

    constructor (budget: ConnectionBudget, peer: Peer)
      ensures this.budget == budget && this.peer == peer && uid == None && !closed
    {
      this.budget, this.peer, uid, closed := budget, peer, None, false;
    }

    /** promote: the lease moves from the pending counters to the account's counters, once. */
    method Promote(to: Uid) returns (r: Outcome)
      requires budget.Valid() && Matches()
      modifies this, budget
      ensures budget.Valid() && Matches()
      ensures old(closed) ==> r == ClosedConnection
      ensures !old(closed) && old(uid).Some? ==> r == if old(uid) == Some(to) then Ok else IdentityChanged
      ensures !old(closed) && old(uid).None? ==>
                r == if |AllActive(old(budget.open))| >= budget.activeLimit
                        || |ActiveOf(old(budget.open), to)| >= budget.perUidLimit then ServerBusy else Ok
      ensures !old(closed) && old(uid).None? && r == Ok ==>
                budget.open == old(budget.open)[this := Grant(peer, Some(to))]
      ensures r != Ok || old(uid).Some? ==> unchanged(this) && unchanged(budget)
    {
      if closed {
        return ClosedConnection;
      }
      if uid.Some? {
        return if uid.value != to then IdentityChanged else Ok;
      }
      var b := budget;
      assert b.active == |AllActive(b.open)| && Count(b.byUid, to) == |ActiveOf(b.open, to)|;
      hide Counts, AllActive, ActiveOf, AllPending, PendingOf;
      if b.active >= b.activeLimit || Count(b.byUid, to) >= b.perUidLimit {
        return ServerBusy;
      }
      var before := Grant(peer, None);
      DropLease(b.View(), b.open, this);
      AddLease(Minus(b.View(), before), b.open - {this}, this, Grant(peer, Some(to)));
      assert (b.open - {this})[this := Grant(peer, Some(to))] == b.open[this := Grant(peer, Some(to))];
      b.pending := b.pending - 1;
      DecrementWithin(b.byIp, peer, b.perIpLimit);
      b.byIp := Decrement(b.byIp, peer);
      uid := Some(to);
      b.active := b.active + 1;
      IncrementWithin(b.byUid, to, b.perUidLimit);
      b.byUid := Increment(b.byUid, to);
      b.open := b.open[this := Grant(peer, uid)];
      assert b.View() == Plus(Minus(old(b.View()), before), Grant(peer, uid));
      r := Ok;
    }

    /** release: idempotent, and takes the lease out of exactly the counters it is in. */
    method Release()
      requires budget.Valid() && Matches()
      modifies this, budget
      ensures budget.Valid() && Matches() && closed
      ensures budget.open == old(budget.open) - {this}
    {
      if closed {
        assert budget.open - {this} == budget.open;
        return;
      }
      closed := true;
      var b := budget;
      hide Counts;
      DropLease(b.View(), b.open, this);
      if uid.None? {
        b.pending := b.pending - 1;
        DecrementWithin(b.byIp, peer, b.perIpLimit);
        b.byIp := Decrement(b.byIp, peer);
      } else {
        b.active := b.active - 1;
        DecrementWithin(b.byUid, uid.value, b.perUidLimit);
        b.byUid := Decrement(b.byUid, uid.value);
      }
      b.open := b.open - {this};
      assert b.View() == Minus(old(b.View()), Grant(peer, uid));
    }
  }

  lemma NoLeases(open: map<Lease, Grant>)
    requires open == map[]
    ensures Counts(Counters(0, 0, map[], map[]), open)
  {
    assert AllPending(open) == {} && AllActive(open) == {};
    forall p: Peer ensures PendingOf(open, p) == {} {}
    forall u: Uid ensures ActiveOf(open, u) == {} {}
  }

  lemma AddedPending(open: map<Lease, Grant>, l: Lease, g: Grant)
    requires l !in open
    ensures |AllPending(open[l := g])| == |AllPending(open)| + if g.uid.None? then 1 else 0
  {
    assert AllPending(open[l := g]) == if g.uid.None? then AllPending(open) + {l} else AllPending(open);
  }

  lemma AddedActive(open: map<Lease, Grant>, l: Lease, g: Grant)
    requires l !in open
    ensures |AllActive(open[l := g])| == |AllActive(open)| + if g.uid.Some? then 1 else 0
  {
    assert AllActive(open[l := g]) == if g.uid.Some? then AllActive(open) + {l} else AllActive(open);
  }

  lemma AddedPeer(open: map<Lease, Grant>, l: Lease, g: Grant, p: Peer)
    requires l !in open
    ensures |PendingOf(open[l := g], p)| == |PendingOf(open, p)| + if g == Grant(p, None) then 1 else 0
  {
    assert PendingOf(open[l := g], p) == if g == Grant(p, None) then PendingOf(open, p) + {l} else PendingOf(open, p);
  }

  lemma AddedUid(open: map<Lease, Grant>, l: Lease, g: Grant, u: Uid)
    requires l !in open
    ensures |ActiveOf(open[l := g], u)| == |ActiveOf(open, u)| + if g.uid == Some(u) then 1 else 0
  {
    assert ActiveOf(open[l := g], u) == if g.uid == Some(u) then ActiveOf(open, u) + {l} else ActiveOf(open, u);
  }

  lemma AddLease(c: Counters, open: map<Lease, Grant>, l: Lease, g: Grant)
    requires Counts(c, open) && l !in open
    ensures Counts(Plus(c, g), open[l := g])
  {
    hide AllPending, AllActive, PendingOf, ActiveOf;
    AddedPending(open, l, g);
    AddedActive(open, l, g);
    forall p: Peer
      ensures Count(Plus(c, g).byIp, p) == |PendingOf(open[l := g], p)|
    {
      AddedPeer(open, l, g, p);
      assert Count(c.byIp, p) == |PendingOf(open, p)|;
    }
    forall u: Uid
      ensures Count(Plus(c, g).byUid, u) == |ActiveOf(open[l := g], u)|
    {
      AddedUid(open, l, g, u);
      assert Count(c.byUid, u) == |ActiveOf(open, u)|;
    }
  }

  lemma DropLease(c: Counters, open: map<Lease, Grant>, l: Lease)
    requires Counts(c, open) && l in open
    ensures match open[l].uid case None => Count(c.byIp, open[l].peer) > 0 case Some(u) => Count(c.byUid, u) > 0
    ensures Counts(Minus(c, open[l]), open - {l})
  {
    hide AllPending, AllActive, PendingOf, ActiveOf;
    var g := open[l];
    var rest := open - {l};
    assert rest[l := g] == open;
    AddedPending(rest, l, g);
    AddedActive(rest, l, g);
    forall p: Peer
      ensures Count(c.byIp, p) == |PendingOf(rest, p)| + if g == Grant(p, None) then 1 else 0
    {
      AddedPeer(rest, l, g, p);
    }
    forall u: Uid
      ensures Count(c.byUid, u) == |ActiveOf(rest, u)| + if g.uid == Some(u) then 1 else 0
    {
      AddedUid(rest, l, g, u);
    }
  }

  /** Once every lease has been released all counters are back at zero. */
  lemma AllReleased(b: ConnectionBudget)
    requires b.Valid() && b.open == map[]
    ensures b.pending == 0 && b.active == 0 && b.byIp == map[] && b.byUid == map[]
  {
    assert AllPending(b.open) == {} && AllActive(b.open) == {};
    forall p
      ensures p !in b.byIp
    {
      assert PendingOf(b.open, p) == {};
      assert Count(b.byIp, p) == 0;
    }
    forall u
      ensures u !in b.byUid
    {
      assert ActiveOf(b.open, u) == {};
      assert Count(b.byUid, u) == 0;
    }
  }
}
