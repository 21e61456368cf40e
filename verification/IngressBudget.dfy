/**
 * Pre-authentication datagram budget: token buckets in two bounded least-recently-used tables
 * and one global bucket.
 */
module IngressBudget {

  datatype Option<+T> = None | Some(value: T)

  datatype Policy = Policy(
    unknownRate: nat, unknownBurst: nat, globalRate: nat, globalBurst: nat, sourceLimit: nat, sourceIdle: nat,
    boundRate: nat, boundBurst: nat, boundLimit: nat)

  /** DatagramPolicy.__post_init__ */
  predicate Acceptable(p: Policy) {
    && 1 <= p.unknownRate <= 65536 && 1 <= p.unknownBurst <= 65536
    && 1 <= p.globalRate <= 65536 && 1 <= p.globalBurst <= 65536
    && 1 <= p.sourceLimit <= 65536 && 1 <= p.sourceIdle <= 65536
    && 1 <= p.boundRate <= 65536 && 1 <= p.boundBurst <= 65536 && 1 <= p.boundLimit <= 65536
  }

  datatype Peer = Peer(host: nat, port: nat)

  datatype Key = Source(host: nat) | Bound(owner: nat, peer: Peer)

  datatype Bucket = Bucket(tokens: real, at: real, seen: real)

  function NewBucket(burst: nat, now: real): Bucket {
    Bucket(burst as real, now, now)
  }

  function MinReal(a: real, b: real): real {
    if a < b then a else b
  }

  function MaxReal(a: real, b: real): real {
    if a < b then b else a
  }

  function Refill(elapsed: real, rate: nat): real {
    elapsed * rate as real
  }

  /** Bucket.take */
  function Take(b: Bucket, rate: nat, burst: nat, now: real): (bool, Bucket) {
    var n := MaxReal(b.at, now);
    var tokens := MinReal(burst as real, b.tokens + Refill(n - b.at, rate));
    if tokens < 1.0 then (false, Bucket(tokens, n, n)) else (true, Bucket(tokens - 1.0, n, n))
  }

  datatype Row = Row(key: Key, bucket: Bucket)

  datatype Budget = Budget(sources: seq<Row>, bound: seq<Row>, unknown: Bucket)

  datatype Call = Call(peer: Peer, owner: Option<nat>, now: real)

  predicate HasKey(rows: seq<Row>, key: Key) {
    exists i :: 0 <= i < |rows| && rows[i].key == key
  }

  function IndexOf(rows: seq<Row>, key: Key): (i: nat)
    requires HasKey(rows, key)
    ensures i < |rows| && rows[i].key == key
  {
    if rows[0].key == key then 0 else
      assert HasKey(rows[1..], key) by {
        var i :| 0 <= i < |rows| && rows[i].key == key;
        assert rows[1..][i - 1].key == key;
      }
      1 + IndexOf(rows[1..], key)
  }

  /** The loop at the head of allow: drop rows from the front while the front row is idle. */
  function Prune(rows: seq<Row>, idle: nat, now: real): seq<Row> {
    if rows != [] && now - rows[0].bucket.seen >= idle as real then Prune(rows[1..], idle, now) else rows
  }

  /** Insert the key if it is new, evicting the front row of a full table, and move it to the end. */
  function Touch(rows: seq<Row>, key: Key, limit: nat, burst: nat, now: real): (out: seq<Row>)
    requires limit > 0
    ensures |out| > 0 && out[|out| - 1].key == key
  {
    if HasKey(rows, key) then
      var i := IndexOf(rows, key);
      rows[..i] + rows[i + 1..] + [rows[i]]
    else
      (if |rows| >= limit then rows[1..] else rows) + [Row(key, NewBucket(burst, now))]
  }

  function SpendLast(rows: seq<Row>, rate: nat, burst: nat, now: real): (bool, seq<Row>)
    requires |rows| > 0
  {
    var last := rows[|rows| - 1];
    var (ok, b) := Take(last.bucket, rate, burst, now);
    (ok, rows[..|rows| - 1] + [last.(bucket := b)])
  }

  function UseTable(rows: seq<Row>, key: Key, limit: nat, idle: nat, rate: nat, burst: nat, now: real): (bool, seq<Row>)
    requires limit > 0
  {
    SpendLast(Touch(Prune(rows, idle, now), key, limit, burst, now), rate, burst, now)
  }

  /** IngressBudget.allow */
  function Allow(p: Policy, s: Budget, c: Call): (bool, Budget)
    requires Acceptable(p)
  {
    match c.owner
    case Some(o) =>
      var (ok, rows) :=
        UseTable(s.bound, Bound(o, c.peer), p.boundLimit, p.sourceIdle, p.boundRate, p.boundBurst, c.now);
      (ok, s.(bound := rows))
    case None =>
      var (ok, rows) :=
        UseTable(s.sources, Source(c.peer.host), p.sourceLimit, p.sourceIdle, p.unknownRate, p.unknownBurst, c.now);
      if !ok then (false, s.(sources := rows))
      else
        var (pass, g) := Take(s.unknown, p.globalRate, p.globalBurst, c.now);
        (pass, s.(sources := rows, unknown := g))
  }

  function NewBudget(p: Policy, now: real): Budget {
    Budget([], [], NewBucket(p.globalBurst, now))
  }

  class IngressBudget {
    const policy: Policy
    var sources: seq<Row>
    var bound: seq<Row>
    var unknown: Bucket

    ghost function View(): Budget
      reads this
    {
      Budget(sources, bound, unknown)
    }

    constructor (policy: Policy, now: real)
      ensures this.policy == policy && View() == NewBudget(policy, now)
    {
      this.policy := policy;
      sources, bound, unknown := [], [], NewBucket(policy.globalBurst, now);
    }

    method AllowCall(c: Call) returns (ok: bool)
      requires Acceptable(policy)
      modifies this
      ensures (ok, View()) == Allow(policy, old(View()), c)
    {
      var owned := c.owner.Some?;
      var table := if owned then bound else sources;
      var limit := if owned then policy.boundLimit else policy.sourceLimit;
      var key := if owned then Bound(c.owner.value, c.peer) else Source(c.peer.host);
      var rate := if owned then policy.boundRate else policy.unknownRate;
      var burst := if owned then policy.boundBurst else policy.unknownBurst;
      ghost var pruned := Prune(table, policy.sourceIdle, c.now);
      while table != [] && c.now - table[0].bucket.seen >= policy.sourceIdle as real
        invariant Prune(table, policy.sourceIdle, c.now) == pruned
        decreases |table|
      {
        table := table[1..];
      }
      var found := FindKey(table, key);
      if found == None {
        if |table| >= limit {
          table := table[1..];
        }
        table := table + [Row(key, NewBucket(burst, c.now))];
      } else {
        var i := found.value;
        table := table[..i] + table[i + 1..] + [table[i]];
      }
      assert table == Touch(pruned, key, limit, burst, c.now);
      var last := |table| - 1;
      var (spent, b) := Take(table[last].bucket, rate, burst, c.now);
      table := table[..last] + [table[last].(bucket := b)];
      if owned {
        bound := table;
        return spent;
      }
      sources := table;
      if !spent {
        return false;
      }
      var (pass, g) := Take(unknown, policy.globalRate, policy.globalBurst, c.now);
      unknown := g;
      ok := pass;
    }

    method FindKey(rows: seq<Row>, key: Key) returns (r: Option<nat>)
      ensures r.Some? ==> HasKey(rows, key) && r.value == IndexOf(rows, key)
      ensures r.None? ==> !HasKey(rows, key)
    {
      var i := 0;
      while i < |rows|
        invariant i <= |rows|
        invariant forall j | 0 <= j < i :: rows[j].key != key
      {
        if rows[i].key == key {
          FirstIsIndex(rows, key, i);
          return Some(i);
        }
        i := i + 1;
      }
      r := None;
    }
  }

  lemma {:induction false} FirstIsIndex(rows: seq<Row>, key: Key, i: nat)
    requires i < |rows| && rows[i].key == key && forall j | 0 <= j < i :: rows[j].key != key
    ensures HasKey(rows, key) && IndexOf(rows, key) == i
  {
    if i > 0 {
      assert rows[1..][i - 1].key == key;
      FirstIsIndex(rows[1..], key, i - 1);
    }
  }

  // ---------------------------------------------------------------- tables

  predicate DistinctKeys(rows: seq<Row>) {
    forall i, j | 0 <= i < j < |rows| :: rows[i].key != rows[j].key
  }

  /** Oldest use first, and nothing used later than the clock. */
  predicate OrderedByUse(rows: seq<Row>, now: real) {
    && (forall i, j | 0 <= i < j < |rows| :: rows[i].bucket.seen <= rows[j].bucket.seen)
    && (forall i | 0 <= i < |rows| :: rows[i].bucket.at == rows[i].bucket.seen <= now)
  }

  predicate IsIdle(r: Row, idle: nat, now: real) {
    now - r.bucket.seen >= idle as real
  }

  function NotIdle(rows: seq<Row>, idle: nat, now: real): seq<Row> {
    if rows == [] then []
    else (if IsIdle(rows[0], idle, now) then [] else [rows[0]]) + NotIdle(rows[1..], idle, now)
  }

  lemma {:induction false} AllRecent(rows: seq<Row>, idle: nat, now: real)
    requires forall r | r in rows :: !IsIdle(r, idle, now)
    ensures NotIdle(rows, idle, now) == rows
  {
    if rows != [] {
      assert rows[0] in rows && forall r | r in rows[1..] :: r in rows;
      AllRecent(rows[1..], idle, now);
      assert rows == [rows[0]] + rows[1..];
    }
  }

  /** In use order the front-pruning loop removes exactly the idle rows, wherever they are. */
  lemma {:induction false} PruneRemovesExactlyIdle(rows: seq<Row>, idle: nat, now: real)
    requires OrderedByUse(rows, now)
    ensures Prune(rows, idle, now) == NotIdle(rows, idle, now)
  {
    if rows != [] {
      if IsIdle(rows[0], idle, now) {
        PruneRemovesExactlyIdle(rows[1..], idle, now);
        assert [] + NotIdle(rows[1..], idle, now) == NotIdle(rows[1..], idle, now);
      } else {
        forall r | r in rows ensures !IsIdle(r, idle, now) {
          var i :| 0 <= i < |rows| && rows[i] == r;
          assert rows[0].bucket.seen <= rows[i].bucket.seen;
        }
        AllRecent(rows, idle, now);
      }
    }
  }

  lemma {:induction false} PruneKeeps(rows: seq<Row>, idle: nat, now: real)
    ensures exists k :: 0 <= k <= |rows| && Prune(rows, idle, now) == rows[k..]
  {
    if rows != [] && IsIdle(rows[0], idle, now) {
      PruneKeeps(rows[1..], idle, now);
      var k :| 0 <= k <= |rows| - 1 && Prune(rows[1..], idle, now) == rows[1..][k..];
      assert rows[1..][k..] == rows[k + 1..];
    } else {
      assert rows[0..] == rows;
    }
  }

  ghost predicate Tidy(rows: seq<Row>, now: real) {
    DistinctKeys(rows) && OrderedByUse(rows, now)
  }

  lemma SuffixTidy(rows: seq<Row>, k: nat, now: real)
    requires Tidy(rows, now) && k <= |rows|
    ensures Tidy(rows[k..], now)
  {
  }

  lemma WithoutTidy(rows: seq<Row>, i: nat, now: real)
    requires Tidy(rows, now) && i < |rows|
    ensures Tidy(rows[..i] + rows[i + 1..], now)
    ensures !HasKey(rows[..i] + rows[i + 1..], rows[i].key)
  {
    var rest := rows[..i] + rows[i + 1..];
    forall j | 0 <= j < |rest|
      ensures rest[j] == rows[if j < i then j else j + 1]
    {
    }
  }

  lemma AppendTidy(rows: seq<Row>, r: Row, before: real, now: real)
    requires Tidy(rows, before) && before <= now && !HasKey(rows, r.key)
    requires r.bucket.at == r.bucket.seen == now
    ensures Tidy(rows + [r], now)
  {
    var out := rows + [r];
    forall i | 0 <= i < |rows|
      ensures out[i] == rows[i] && rows[i].key != r.key
    {
    }
  }

  /** Touching moves the key's row, new or old, behind an otherwise unchanged and still tidy table. */
  lemma TouchSplits(rows: seq<Row>, key: Key, limit: nat, burst: nat, now: real, before: real)
    requires limit > 0 && Tidy(rows, before) && |rows| <= limit && before <= now
    ensures var out := Touch(rows, key, limit, burst, now);
      var n := |out| - 1;
      && |out| <= limit && Tidy(out[..n], before) && !HasKey(out[..n], key) && out[n].bucket.at <= now
  {
    var out := Touch(rows, key, limit, burst, now);
    if HasKey(rows, key) {
      var i := IndexOf(rows, key);
      WithoutTidy(rows, i, before);
      assert out[..|out| - 1] == rows[..i] + rows[i + 1..];
      assert rows[i].bucket.at <= before;
    } else {
      var k := if |rows| >= limit then 1 else 0;
      SuffixTidy(rows, k, before);
      assert out[..|out| - 1] == rows[k..];
    }
  }

  /** One use of a table keeps it distinct, ordered and within its limit. */
  lemma UseTableKeeps(rows: seq<Row>, key: Key, limit: nat, idle: nat, rate: nat, burst: nat, before: real, now: real)
    requires limit > 0 && Tidy(rows, before) && |rows| <= limit && before <= now
    ensures var out := UseTable(rows, key, limit, idle, rate, burst, now).1;
      Tidy(out, now) && |out| <= limit
  {
    hide Touch, Tidy;
    PruneKeeps(rows, idle, now);
    var k :| 0 <= k <= |rows| && Prune(rows, idle, now) == rows[k..];
    SuffixTidy(rows, k, before);
    TouchSplits(rows[k..], key, limit, burst, now, before);
    var touched := Touch(rows[k..], key, limit, burst, now);
    var n := |touched| - 1;
    AppendTidy(touched[..n], touched[n].(bucket := Take(touched[n].bucket, rate, burst, now).1), before, now);
  }

  // ---------------------------------------------------------------- whole runs

  /** Times on a monotone clock, none before `start`. */
  predicate Monotone(start: real, calls: seq<Call>) {
    && (forall i | 0 <= i < |calls| :: start <= calls[i].now)
    && (forall i, j | 0 <= i < j < |calls| :: calls[i].now <= calls[j].now)
  }

  function Latest(start: real, calls: seq<Call>): real {
    if calls == [] then start else calls[|calls| - 1].now
  }

  function Run(p: Policy, start: real, calls: seq<Call>): Budget
    requires Acceptable(p)
  {
    if calls == [] then NewBudget(p, start)
    else Allow(p, Run(p, start, calls[..|calls| - 1]), calls[|calls| - 1]).1
  }

  ghost predicate Inv(p: Policy, s: Budget, now: real) {
    && Tidy(s.sources, now) && |s.sources| <= p.sourceLimit
    && Tidy(s.bound, now) && |s.bound| <= p.boundLimit
    && 0.0 <= s.unknown.tokens <= p.globalBurst as real && s.unknown.at <= now
  }

  lemma RefillNonneg(elapsed: real, rate: nat)
    requires elapsed >= 0.0
    ensures Refill(elapsed, rate) >= 0.0
  {
  }

  lemma RefillSum(a: real, b: real, rate: nat)
    ensures Refill(a + b, rate) == Refill(a, rate) + Refill(b, rate)
    ensures Refill(0.0, rate) == 0.0
  {
  }

  lemma TakeBounds(b: Bucket, rate: nat, burst: nat, now: real)
    requires 0.0 <= b.tokens <= burst as real && b.at <= now
    ensures var (ok, after) := Take(b, rate, burst, now);
      0.0 <= after.tokens <= burst as real && after.at == after.seen == now
  {
    hide Refill;
    RefillNonneg(now - b.at, rate);
  }

  lemma TidyLater(rows: seq<Row>, before: real, now: real)
    requires Tidy(rows, before) && before <= now
    ensures Tidy(rows, now)
  {
  }

  lemma AllowKeepsInv(p: Policy, s: Budget, c: Call, before: real)
    requires Acceptable(p) && Inv(p, s, before) && before <= c.now
    ensures Inv(p, Allow(p, s, c).1, c.now)
  {
    TakeBounds(s.unknown, p.globalRate, p.globalBurst, c.now);
    TidyLater(s.sources, before, c.now);
    TidyLater(s.bound, before, c.now);
    hide Take, UseTable, Tidy;
    match c.owner
    case Some(o) =>
      UseTableKeeps(s.bound, Bound(o, c.peer), p.boundLimit, p.sourceIdle, p.boundRate, p.boundBurst, before, c.now);
    case None =>
      UseTableKeeps(s.sources, Source(c.peer.host), p.sourceLimit, p.sourceIdle,
                    p.unknownRate, p.unknownBurst, before, c.now);
  }

  /** On a monotone clock both tables stay within their limits, distinct and in order of last use. */
  lemma {:induction false} RunInv(p: Policy, start: real, calls: seq<Call>)
    requires Acceptable(p) && Monotone(start, calls)
    ensures Inv(p, Run(p, start, calls), Latest(start, calls))
  {
    if calls != [] {
      var n := |calls| - 1;
      RunInv(p, start, calls[..n]);
      AllowKeepsInv(p, Run(p, start, calls[..n]), calls[n], Latest(start, calls[..n]));
    }
  }

  /** Authenticated and unknown traffic do not touch each other's state. */
  lemma TablesIndependent(p: Policy, s: Budget, c: Call)
    requires Acceptable(p)
    ensures var t := Allow(p, s, c).1;
      && (c.owner.Some? ==> t.sources == s.sources && t.unknown == s.unknown)
      && (c.owner.None? ==> t.bound == s.bound)
  {
    hide Take, UseTable;
  }

  /** Unknown datagrams admitted by the calls of one stretch of a run, starting from s. */
  function UnknownAllowed(p: Policy, s: Budget, calls: seq<Call>): nat
    requires Acceptable(p)
    decreases |calls|
  {
    if calls == [] then 0
    else
      var (ok, t) := Allow(p, s, calls[0]);
      (if ok && calls[0].owner.None? then 1 else 0) + UnknownAllowed(p, t, calls[1..])
  }

  /** What the global bucket could hold at time t. */
  function Credit(p: Policy, b: Bucket, t: real): real {
    MinReal(p.globalBurst as real, b.tokens + Refill(t - b.at, p.globalRate))
  }

  lemma CreditGrows(p: Policy, b: Bucket, t: real, u: real)
    requires t <= u
    ensures Credit(p, b, u) <= Credit(p, b, t) + Refill(u - t, p.globalRate)
  {
    hide Refill;
    RefillSum(t - b.at, u - t, p.globalRate);
    RefillNonneg(u - t, p.globalRate);
  }

  /** One call costs the global credit at least what it admits. */
  lemma CallSpendsCredit(p: Policy, s: Budget, c: Call)
    requires Acceptable(p) && s.unknown.at <= c.now
    ensures var (ok, t) := Allow(p, s, c);
      && Credit(p, t.unknown, c.now) <= Credit(p, s.unknown, c.now) - (if ok && c.owner.None? then 1.0 else 0.0)
      && (0.0 <= Credit(p, s.unknown, c.now) ==> 0.0 <= Credit(p, t.unknown, c.now))
  {
    hide UseTable;
    hide Refill;
    RefillSum(0.0, 0.0, p.globalRate);
  }

  lemma {:induction false} UnknownWithinCredit(p: Policy, s: Budget, calls: seq<Call>, before: real)
    requires Acceptable(p) && calls != [] && Monotone(before, calls) && Inv(p, s, before)
    ensures UnknownAllowed(p, s, calls) as real
         <= Credit(p, s.unknown, calls[0].now) + Refill(Latest(before, calls) - calls[0].now, p.globalRate)
    decreases |calls|
  {
    hide Take, UseTable, Inv, Refill, Credit, Allow;
    var (ok, t) := Allow(p, s, calls[0]);
    var now := calls[0].now;
    assert s.unknown.at <= now && 0.0 <= Credit(p, s.unknown, now) by {
      CreditNonnegative(p, s, before, now);
    }
    CallSpendsCredit(p, s, calls[0]);
    if |calls| > 1 {
      AllowKeepsInv(p, s, calls[0], before);
      var next := calls[1].now;
      CreditGrows(p, t.unknown, now, next);
      UnknownWithinCredit(p, t, calls[1..], now);
      var last := Latest(now, calls[1..]);
      RefillSum(next - now, last - next, p.globalRate);
    } else {
      assert UnknownAllowed(p, t, calls[1..]) == 0;
      RefillSum(0.0, 0.0, p.globalRate);
    }
  }

  lemma CreditNonnegative(p: Policy, s: Budget, before: real, now: real)
    requires Inv(p, s, before) && before <= now
    ensures s.unknown.at <= now && 0.0 <= Credit(p, s.unknown, now)
  {
    hide Refill;
    RefillNonneg(now - s.unknown.at, p.globalRate);
  }

  /**
   Whatever sources appear, evict each other and come back: any stretch of consecutive calls of a run admits at most
   globalBurst plus globalRate for each second between its first and its last call.
   */
  lemma GlobalBound(p: Policy, start: real, earlier: seq<Call>, calls: seq<Call>)
    requires Acceptable(p) && Monotone(start, earlier + calls) && calls != []
    ensures UnknownAllowed(p, Run(p, start, earlier), calls) as real
         <= p.globalBurst as real + Refill(calls[|calls| - 1].now - calls[0].now, p.globalRate)
  {
    hide Refill, UnknownAllowed, Run, Inv;
    MonotoneParts(start, earlier, calls);
    RunInv(p, start, earlier);
    UnknownWithinCredit(p, Run(p, start, earlier), calls, Latest(start, earlier));
  }

  lemma MonotoneParts(start: real, earlier: seq<Call>, calls: seq<Call>)
    requires Monotone(start, earlier + calls)
    ensures Monotone(start, earlier) && Monotone(Latest(start, earlier), calls)
  {
    var all := earlier + calls;
    assert forall i | 0 <= i < |earlier| :: all[i] == earlier[i];
    assert forall i | 0 <= i < |calls| :: all[|earlier| + i] == calls[i];
  }
}
