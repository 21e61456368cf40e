/** When a datagram is admitted, and what it leaves for later ones, said of tokens, rates and times alone. */
module IngressLaws {
  import opened IngressBudget

  /** A row of the table for this key that was used less than the idle time ago. */
  ghost predicate Lives(rows: seq<Row>, key: Key, idle: nat, now: real, r: Row) {
    r in rows && r.key == key && now - r.bucket.seen < idle as real
  }

  function Gained(elapsed: real, rate: nat): real { elapsed * rate as real }

  /** Tokens on hand: what was left, refilled at the rate since, and never more than the burst. */
  ghost predicate Holds(b: Bucket, rate: nat, burst: nat, now: real, tokens: real) {
    var refilled := b.tokens + Gained(now - b.at, rate);
    (refilled <= burst as real ==> tokens == refilled) && (refilled >= burst as real ==> tokens == burst as real)
  }

  /** A sender the table does not know, or no longer, has the full burst. */
  ghost predicate Stock(rows: seq<Row>, key: Key, idle: nat, rate: nat, burst: nat, now: real, tokens: real) {
    && (forall r :: Lives(rows, key, idle, now, r) ==> Holds(r.bucket, rate, burst, now, tokens))
    && ((forall r :: !Lives(rows, key, idle, now, r)) ==> tokens == burst as real)
  }

  lemma TakeHolds(b: Bucket, rate: nat, burst: nat, now: real, tokens: real)
    requires b.at <= now && Holds(b, rate, burst, now, tokens)
    ensures Take(b, rate, burst, now)
         == (tokens >= 1.0, Bucket(if tokens >= 1.0 then tokens - 1.0 else tokens, now, now))
  {
    assert MaxReal(b.at, now) == now;
    RefillIs(now - b.at, rate);
    hide Refill, Gained;
  }

  lemma RefillIs(elapsed: real, rate: nat)
    ensures Refill(elapsed, rate) == Gained(elapsed, rate)
  {
  }

  // ---------------------------------------------------------------- one use of a table

  /** What one use leaves: the sender's row at the end with one token less if it had one, the others as they were. */
  ghost predicate Used(rows: seq<Row>, key: Key, limit: nat, idle: nat, now: real, tokens: real, out: seq<Row>) {
    && out != []
    && out[|out| - 1] == Row(key, Bucket(if tokens >= 1.0 then tokens - 1.0 else tokens, now, now))
    && (forall r <- out[..|out| - 1] :: r.key != key && r in rows && now - r.bucket.seen < idle as real)
    && (forall r <- rows :: r.key != key && now - r.bucket.seen < idle as real && r !in out ==>
          && (forall v :: !Lives(rows, key, idle, now, v))
          && (forall v <- rows :: now - v.bucket.seen < idle as real ==> r.bucket.seen <= v.bucket.seen)
          && |out| == limit)
  }

  lemma {:induction false} NotIdleAre(rows: seq<Row>, idle: nat, now: real)
    ensures forall r :: r in NotIdle(rows, idle, now) <==> r in rows && now - r.bucket.seen < idle as real
  {
    if rows != [] {
      NotIdleAre(rows[1..], idle, now);
      assert rows == [rows[0]] + rows[1..];
    }
  }

  lemma PrunedAre(rows: seq<Row>, idle: nat, now: real, before: real)
    requires Tidy(rows, before) && before <= now
    ensures var kept := Prune(rows, idle, now);
      && Tidy(kept, before) && |kept| <= |rows|
      && forall r :: r in kept <==> r in rows && now - r.bucket.seen < idle as real
  {
    TidyLater(rows, before, now);
    PruneRemovesExactlyIdle(rows, idle, now);
    NotIdleAre(rows, idle, now);
    PruneKeeps(rows, idle, now);
    var k :| 0 <= k <= |rows| && Prune(rows, idle, now) == rows[k..];
    SuffixTidy(rows, k, before);
    hide Prune, NotIdle, Tidy;
  }

  lemma KeyRow(rows: seq<Row>, key: Key, now: real)
    requires Tidy(rows, now)
    ensures HasKey(rows, key) <==> exists r <- rows :: r.key == key
    ensures forall r <- rows :: r.key == key ==> HasKey(rows, key) && r == rows[IndexOf(rows, key)]
  {
    forall r | r in rows && r.key == key
      ensures HasKey(rows, key) && r == rows[IndexOf(rows, key)]
    {
      var i :| 0 <= i < |rows| && rows[i] == r;
      assert HasKey(rows, key);
      var j := IndexOf(rows, key);
      hide IndexOf;
    }
    if HasKey(rows, key) {
      assert rows[IndexOf(rows, key)] in rows;
    }
  }

  /** The sender's bucket before the take, and the rest of the table behind which it is put. */
  lemma TouchedIs(kept: seq<Row>, key: Key, limit: nat, burst: nat, now: real, before: real)
    requires limit > 0 && Tidy(kept, before) && |kept| <= limit && before <= now
    ensures var out := Touch(kept, key, limit, burst, now);
      var n := |out| - 1;
      && out[n].key == key && (forall r <- out[..n] :: r.key != key && r in kept)
      && (forall r <- kept :: r.key == key ==> out[n] == r && out[n].bucket.at <= now)
      && (!(exists r <- kept :: r.key == key) ==> out[n].bucket == Bucket(burst as real, now, now))
      && (forall r <- kept :: r.key != key && r !in out[..n] ==>
            && !(exists v <- kept :: v.key == key) && |out| == limit && r == kept[0])
  {
    var out := Touch(kept, key, limit, burst, now);
    var n := |out| - 1;
    KeyRow(kept, key, before);
    TouchSplits(kept, key, limit, burst, now, before);
    if HasKey(kept, key) {
      var i := IndexOf(kept, key);
      hide IndexOf;
      WithoutRow(kept, i, before);
      assert out[..n] == kept[..i] + kept[i + 1..] && out[n] == kept[i];
    } else {
      hide HasKey;
      var rest := if |kept| >= limit then kept[1..] else kept;
      assert out[..n] == rest;
      assert forall r <- kept :: r !in rest ==> |kept| >= limit && r == kept[0] by {
        if |kept| >= limit {
          assert kept == [kept[0]] + kept[1..];
        }
      }
    }
  }

  lemma WithoutRow(rows: seq<Row>, i: nat, now: real)
    requires Tidy(rows, now) && i < |rows|
    ensures forall r :: r in rows[..i] + rows[i + 1..] <==> r in rows && r.key != rows[i].key
  {
    var rest := rows[..i] + rows[i + 1..];
    forall r | r in rows && r.key != rows[i].key
      ensures r in rest
    {
      var j :| 0 <= j < |rows| && rows[j] == r;
      assert rest[if j < i then j else j - 1] == r;
    }
    forall r | r in rest
      ensures r in rows && r.key != rows[i].key
    {
      var j :| 0 <= j < |rest| && rest[j] == r;
      var k := if j < i then j else j + 1;
      assert rows[k] == r;
      if k < i {
        assert rows[k].key != rows[i].key;
      } else {
        assert rows[i].key != rows[k].key;
      }
    }
  }

  /** A use of a table is admitted exactly when the sender has a whole token. */
  lemma UseTableIff(rows: seq<Row>, key: Key, limit: nat, idle: nat, rate: nat, burst: nat, now: real, before: real,
                    tokens: real)
    requires limit > 0 && Tidy(rows, before) && |rows| <= limit && before <= now
    requires Stock(rows, key, idle, rate, burst, now, tokens)
    ensures var (ok, out) := UseTable(rows, key, limit, idle, rate, burst, now);
      (ok <==> tokens >= 1.0) && Used(rows, key, limit, idle, now, tokens, out)
  {
    PrunedAre(rows, idle, now, before);
    var kept := Prune(rows, idle, now);
    TouchedIs(kept, key, limit, burst, now, before);
    var touched := Touch(kept, key, limit, burst, now);
    var n := |touched| - 1;
    var (ok, out) := UseTable(rows, key, limit, idle, rate, burst, now);
    StockOf(rows, kept, key, idle, rate, burst, now, tokens, touched[n]);
    TakeHolds(touched[n].bucket, rate, burst, now, tokens);
    assert out[..|out| - 1] == touched[..n] && |out| == |touched|;
    hide UseTable, Touch, Prune, Take, Stock, Holds, Tidy, Lives;
    forall r | r in rows && r.key != key && now - r.bucket.seen < idle as real && r !in out
      ensures (forall v :: !Lives(rows, key, idle, now, v)) && |out| == limit
      ensures forall v <- rows :: now - v.bucket.seen < idle as real ==> r.bucket.seen <= v.bucket.seen
    {
      assert r in kept && r !in touched[..n];
      EvictedIs(rows, kept, key, idle, now, before, r);
    }
  }

  /** Whoever is evicted made room for a newcomer, and was unused for longest. */
  lemma EvictedIs(rows: seq<Row>, kept: seq<Row>, key: Key, idle: nat, now: real, before: real, r: Row)
    requires Tidy(kept, before) && kept != [] && r == kept[0] && !(exists v <- kept :: v.key == key)
    requires forall v :: v in kept <==> v in rows && now - v.bucket.seen < idle as real
    ensures forall v :: !Lives(rows, key, idle, now, v)
    ensures forall v <- rows :: now - v.bucket.seen < idle as real ==> r.bucket.seen <= v.bucket.seen
  {
    OldestFirst(kept, before);
    hide Tidy;
  }

  lemma OldestFirst(rows: seq<Row>, now: real)
    requires Tidy(rows, now) && rows != []
    ensures forall v <- rows :: rows[0].bucket.seen <= v.bucket.seen
  {
  }

  lemma StockOf(rows: seq<Row>, kept: seq<Row>, key: Key, idle: nat, rate: nat, burst: nat, now: real, tokens: real,
                row: Row)
    requires Stock(rows, key, idle, rate, burst, now, tokens)
    requires forall r :: r in kept <==> r in rows && now - r.bucket.seen < idle as real
    requires forall r <- kept :: r.key == key ==> row == r && row.bucket.at <= now
    requires !(exists r <- kept :: r.key == key) ==> row.bucket == Bucket(burst as real, now, now)
    ensures row.bucket.at <= now && Holds(row.bucket, rate, burst, now, tokens)
  {
    if r :| r in kept && r.key == key {
      assert Lives(rows, key, idle, now, r);
    } else {
      assert forall r :: !Lives(rows, key, idle, now, r);
    }
  }

  // ---------------------------------------------------------------- the budget

  /** A bound sender's datagram is admitted exactly when that sender has a whole token of its own. */
  lemma BoundAdmittedIff(p: Policy, s: Budget, c: Call, before: real, tokens: real)
    requires Acceptable(p) && Inv(p, s, before) && before <= c.now && c.owner.Some?
    requires Stock(s.bound, Bound(c.owner.value, c.peer), p.sourceIdle, p.boundRate, p.boundBurst, c.now, tokens)
    ensures var (ok, x) := Allow(p, s, c);
      && (ok <==> tokens >= 1.0) && x.sources == s.sources && x.unknown == s.unknown
      && Used(s.bound, Bound(c.owner.value, c.peer), p.boundLimit, p.sourceIdle, c.now, tokens, x.bound)
  {
    UseTableIff(s.bound, Bound(c.owner.value, c.peer), p.boundLimit, p.sourceIdle, p.boundRate, p.boundBurst, c.now,
                before, tokens);
    hide Stock, Used, Tidy, UseTable;
  }

  /** An unknown source's datagram needs a token of the source and one of all unknown sources together. */
  lemma UnknownAdmittedIff(p: Policy, s: Budget, c: Call, before: real, tokens: real, common: real)
    requires Acceptable(p) && Inv(p, s, before) && before <= c.now && c.owner.None?
    requires Stock(s.sources, Source(c.peer.host), p.sourceIdle, p.unknownRate, p.unknownBurst, c.now, tokens)
    requires Holds(s.unknown, p.globalRate, p.globalBurst, c.now, common)
    ensures var (ok, x) := Allow(p, s, c);
      && (ok <==> tokens >= 1.0 && common >= 1.0) && x.bound == s.bound
      && Used(s.sources, Source(c.peer.host), p.sourceLimit, p.sourceIdle, c.now, tokens, x.sources)
      && (tokens < 1.0 ==> x.unknown == s.unknown)
      && (tokens >= 1.0 ==> x.unknown == Bucket(if common >= 1.0 then common - 1.0 else common, c.now, c.now))
  {
    UseTableIff(s.sources, Source(c.peer.host), p.sourceLimit, p.sourceIdle, p.unknownRate, p.unknownBurst, c.now,
                before, tokens);
    TakeHolds(s.unknown, p.globalRate, p.globalBurst, c.now, common);
    hide Stock, Used, Tidy, UseTable, Take, Holds;
  }

  /** In every reachable budget, a bound sender the table does not know, or forgot as idle, gets through. */
  lemma NewcomersGetThrough(p: Policy, start: real, calls: seq<Call>, c: Call)
    requires Acceptable(p) && Monotone(start, calls + [c]) && c.owner.Some?
    requires forall r :: !Lives(Run(p, start, calls).bound, Bound(c.owner.value, c.peer), p.sourceIdle, c.now, r)
    ensures Allow(p, Run(p, start, calls), c).0
  {
    LaterCall(start, calls, c);
    RunInv(p, start, calls);
    var s := Run(p, start, calls);
    hide Run, Inv, Allow, Used;
    BoundAdmittedIff(p, s, c, Latest(start, calls), p.boundBurst as real);
  }

  lemma LaterCall(start: real, calls: seq<Call>, c: Call)
    requires Monotone(start, calls + [c])
    ensures Monotone(start, calls) && Latest(start, calls) <= c.now
  {
    MonotoneParts(start, calls, [c]);
    assert [c][0] == c;
  }

  /** No row owes tokens, and none has more than its burst. */
  ghost predicate Solvent(rows: seq<Row>, burst: nat) {
    forall r <- rows :: 0.0 <= r.bucket.tokens <= burst as real
  }

  lemma GainedNonneg(elapsed: real, rate: nat)
    requires elapsed >= 0.0
    ensures Gained(elapsed, rate) >= 0.0
  {
  }

  lemma SomeHolding(b: Bucket, rate: nat, burst: nat, now: real) returns (tokens: real)
    requires 0.0 <= b.tokens <= burst as real && b.at <= now
    ensures Holds(b, rate, burst, now, tokens) && 0.0 <= tokens <= burst as real
  {
    var refilled := b.tokens + Gained(now - b.at, rate);
    GainedNonneg(now - b.at, rate);
    hide Gained;
    tokens := if refilled <= burst as real then refilled else burst as real;
  }

  lemma SomeStock(rows: seq<Row>, key: Key, idle: nat, rate: nat, burst: nat, now: real, before: real)
    returns (tokens: real)
    requires Tidy(rows, before) && before <= now && Solvent(rows, burst)
    ensures Stock(rows, key, idle, rate, burst, now, tokens) && 0.0 <= tokens <= burst as real
  {
    if r :| Lives(rows, key, idle, now, r) {
      RowTimes(rows, before, r);
      tokens := SomeHolding(r.bucket, rate, burst, now);
      OneRow(rows, key, idle, now, before, r);
    } else {
      tokens := burst as real;
    }
    hide Holds, Lives;
  }

  lemma RowTimes(rows: seq<Row>, now: real, r: Row)
    requires Tidy(rows, now) && r in rows
    ensures r.bucket.at == r.bucket.seen <= now
  {
    var i :| 0 <= i < |rows| && rows[i] == r;
  }

  lemma UseSolvent(rows: seq<Row>, key: Key, limit: nat, idle: nat, rate: nat, burst: nat, now: real, before: real)
    requires limit > 0 && Tidy(rows, before) && |rows| <= limit && before <= now && Solvent(rows, burst)
    ensures Solvent(UseTable(rows, key, limit, idle, rate, burst, now).1, burst)
  {
    var tokens := SomeStock(rows, key, idle, rate, burst, now, before);
    UseTableIff(rows, key, limit, idle, rate, burst, now, before, tokens);
    var out := UseTable(rows, key, limit, idle, rate, burst, now).1;
    hide UseTable, Stock, Tidy;
    assert out == out[..|out| - 1] + [out[|out| - 1]];
  }

  lemma {:induction false} RunSolvent(p: Policy, start: real, calls: seq<Call>)
    requires Acceptable(p) && Monotone(start, calls)
    ensures Solvent(Run(p, start, calls).bound, p.boundBurst)
    ensures Solvent(Run(p, start, calls).sources, p.unknownBurst)
  {
    if calls != [] {
      var n := |calls| - 1;
      RunSolvent(p, start, calls[..n]);
      RunInv(p, start, calls[..n]);
      var s, c, before := Run(p, start, calls[..n]), calls[n], Latest(start, calls[..n]);
      hide UseTable, Take, Solvent, Tidy;
      match c.owner
      case Some(o) =>
        UseSolvent(s.bound, Bound(o, c.peer), p.boundLimit, p.sourceIdle, p.boundRate, p.boundBurst, c.now, before);
      case None =>
        UseSolvent(s.sources, Source(c.peer.host), p.sourceLimit, p.sourceIdle, p.unknownRate, p.unknownBurst, c.now,
                   before);
    }
  }

  /** The time in which one token is refilled has passed. */
  ghost predicate Waited(since: real, now: real, rate: nat) { Gained(now - since, rate) >= 1.0 }

  lemma PacedHolding(b: Bucket, rate: nat, burst: nat, now: real, tokens: real)
    requires b.tokens >= 0.0 && Waited(b.at, now, rate) && burst >= 1 && Holds(b, rate, burst, now, tokens)
    ensures tokens >= 1.0
  {
  }

  /** In every reachable budget, a bound sender who waited the time of one token since the last one gets through. */
  lemma PacedSendersGetThrough(p: Policy, start: real, calls: seq<Call>, c: Call, r: Row)
    requires Acceptable(p) && Monotone(start, calls + [c]) && c.owner.Some?
    requires Lives(Run(p, start, calls).bound, Bound(c.owner.value, c.peer), p.sourceIdle, c.now, r)
    requires Waited(r.bucket.seen, c.now, p.boundRate)
    ensures Allow(p, Run(p, start, calls), c).0
  {
    LaterCall(start, calls, c);
    RunInv(p, start, calls);
    RunSolvent(p, start, calls);
    var s, key, before := Run(p, start, calls), Bound(c.owner.value, c.peer), Latest(start, calls);
    hide Run, Allow, Waited, Holds, Used;
    var tokens := SomeStock(s.bound, key, p.sourceIdle, p.boundRate, p.boundBurst, c.now, before);
    RowTimes(s.bound, before, r);
    PacedHolding(r.bucket, p.boundRate, p.boundBurst, c.now, tokens);
    hide Stock, Inv;
    BoundAdmittedIff(p, s, c, before, tokens);
  }

  lemma OneRow(rows: seq<Row>, key: Key, idle: nat, now: real, before: real, r: Row)
    requires Tidy(rows, before) && Lives(rows, key, idle, now, r)
    ensures forall v :: Lives(rows, key, idle, now, v) ==> v == r
  {
    KeyRow(rows, key, before);
  }
}
