/** Hit receipts are paid for: each one spends a witness of its own, over every run of a battle. */
module ReceiptConservation {
  import opened BattleEvents
  import opened BattleRules
  import opened BattleDelivery
  import opened BattleLedgers
  import opened MapSums

  // ---------------------------------------------------------------- rows and the acts behind them

  /** The act that recorded this witness. */
  predicate Reports(c: Catalog, a: Act, r: Uid, w: Witness) {
    a.recorded && a.uid == r && a.message.body.Hit? && WitnessOf(c, a.message) == w
  }

  /** The accepted receipt that earned this follow-up right. */
  predicate Earns(a: Act, r: Uid, e: Extra) {
    && a.uid == r && a.message.body.Receipt? && a.spends.Report_? && a.message.body.status in {1, 5}
    && Extra(a.message.body.source, a.message.body.skill, a.message.header.sequence19) == e
  }

  predicate Reported_(c: Catalog, J: seq<Act>, r: Uid, w: Witness) {
    exists a <- J :: Reports(c, a, r, w)
  }

  predicate Earned(J: seq<Act>, r: Uid, e: Extra) {
    exists a <- J :: Earns(a, r, e)
  }

  predicate Spent(J: seq<Act>, r: Uid, s: Spending) {
    exists a <- J :: a.uid == r && a.spends == s
  }

  predicate Rising(rows: seq<Witness>) {
    forall i, j :: 0 <= i < j < |rows| ==> rows[i].sequence < rows[j].sequence
  }

  predicate RisingExtras(rows: seq<Extra>) {
    forall i, j :: 0 <= i < j < |rows| ==> rows[i].sequence < rows[j].sequence
  }

  ghost predicate HitRows(c: Catalog, J: seq<Act>, r: Uid, rows: seq<Witness>, bound: int) {
    && Rising(rows)
    && (forall w <- rows :: w.sequence <= bound && Reported_(c, J, r, w) && !Spent(J, r, Report_(w.sequence)))
  }

  ghost predicate ExtraRows(J: seq<Act>, r: Uid, rows: seq<Extra>, bound: int) {
    && RisingExtras(rows)
    && (forall e <- rows :: e.sequence <= bound && Earned(J, r, e) && !Spent(J, r, FollowUp(e.sequence)))
  }

  lemma MoreActs(c: Catalog, J: seq<Act>, a: Act, r: Uid)
    ensures forall w :: Reported_(c, J, r, w) ==> Reported_(c, J + [a], r, w)
    ensures forall e :: Earned(J, r, e) ==> Earned(J + [a], r, e)
    ensures forall s :: Spent(J + [a], r, s) <==> Spent(J, r, s) || (a.uid == r && a.spends == s)
  {
    assert forall x <- J + [a] :: x in J || x == a;
    assert a in J + [a];
    forall w | Reported_(c, J, r, w)
      ensures Reported_(c, J + [a], r, w)
    {
      var x :| x in J && Reports(c, x, r, w);
      assert x in J + [a];
    }
    forall e | Earned(J, r, e)
      ensures Earned(J + [a], r, e)
    {
      var x :| x in J && Earns(x, r, e);
      assert x in J + [a];
    }
    forall s | Spent(J, r, s)
      ensures Spent(J + [a], r, s)
    {
      var x :| x in J && x.uid == r && x.spends == s;
      assert x in J + [a];
    }
  }

  lemma KeepHitRows(c: Catalog, J: seq<Act>, r: Uid, rows: seq<Witness>, bound: int, a: Act, more: int)
    requires HitRows(c, J, r, rows, bound) && bound <= more
    requires a.uid == r ==> !a.spends.Report_?
    ensures HitRows(c, J + [a], r, rows, more)
  {
    MoreActs(c, J, a, r);
    hide Reported_, Spent;
  }

  lemma NewestHitRows(c: Catalog, J: seq<Act>, r: Uid, rows: seq<Witness>, bound: int)
    requires HitRows(c, J, r, rows, bound)
    ensures HitRows(c, J, r, Newest(rows), bound)
  {
    hide Reported_, Spent;
    assert forall w <- Newest(rows) :: w in rows;
  }

  lemma GrowHitRows(c: Catalog, J: seq<Act>, r: Uid, rows: seq<Witness>, bound: int, a: Act, w: Witness)
    requires HitRows(c, J, r, rows, bound) && bound < w.sequence
    requires Reports(c, a, r, w) && a.spends == Nothing && !Spent(J, r, Report_(w.sequence))
    ensures HitRows(c, J + [a], r, Newest(rows + [w]), w.sequence)
  {
    MoreActs(c, J, a, r);
    assert a in J + [a];
    assert Reported_(c, J + [a], r, w);
    hide Reported_, Spent, Reports, Newest;
    var more := rows + [w];
    assert forall v <- more :: v in rows || v == w;
    assert forall i :: 0 <= i < |rows| ==> more[i] == rows[i] && rows[i] in rows;
    assert HitRows(c, J + [a], r, more, w.sequence);
    NewestHitRows(c, J + [a], r, more, w.sequence);
  }

  lemma SpendHitRows(c: Catalog, J: seq<Act>, r: Uid, rows: seq<Witness>, bound: int, a: Act, i: nat, more: int)
    requires HitRows(c, J, r, rows, bound) && bound <= more && i < |rows|
    requires a.spends == Report_(rows[i].sequence)
    ensures HitRows(c, J + [a], r, Without(rows, i), more)
  {
    MoreActs(c, J, a, r);
    assert forall j :: 0 <= j < |rows| && j != i ==> rows[j].sequence != rows[i].sequence && rows[j] in rows;
    assert forall v <- Without(rows, i) :: exists j :: 0 <= j < |rows| && j != i && rows[j] == v;
    hide Reported_, Spent;
  }

  lemma KeepExtraRows(c: Catalog, J: seq<Act>, r: Uid, rows: seq<Extra>, bound: int, a: Act, more: int)
    requires ExtraRows(J, r, rows, bound) && bound <= more
    requires a.uid == r ==> !a.spends.FollowUp?
    ensures ExtraRows(J + [a], r, rows, more)
  {
    MoreActs(c, J, a, r);
    hide Earned, Spent;
  }

  lemma NewestExtraRows(J: seq<Act>, r: Uid, rows: seq<Extra>, bound: int)
    requires ExtraRows(J, r, rows, bound)
    ensures ExtraRows(J, r, Newest(rows), bound)
  {
    hide Earned, Spent;
    assert forall e <- Newest(rows) :: e in rows;
  }

  lemma GrowExtraRows(c: Catalog, J: seq<Act>, r: Uid, rows: seq<Extra>, bound: int, a: Act, e: Extra)
    requires ExtraRows(J, r, rows, bound) && bound < e.sequence
    requires Earns(a, r, e) && !Spent(J, r, FollowUp(e.sequence))
    ensures ExtraRows(J + [a], r, Newest(rows + [e]), e.sequence)
  {
    MoreActs(c, J, a, r);
    assert a in J + [a];
    assert Earned(J + [a], r, e);
    hide Earned, Spent, Earns, Newest;
    var more := rows + [e];
    assert forall v <- more :: v in rows || v == e;
    assert forall i :: 0 <= i < |rows| ==> more[i] == rows[i] && rows[i] in rows;
    assert ExtraRows(J + [a], r, more, e.sequence);
    NewestExtraRows(J + [a], r, more, e.sequence);
  }

  lemma SpendExtraRows(c: Catalog, J: seq<Act>, r: Uid, rows: seq<Extra>, bound: int, a: Act, i: nat, more: int)
    requires ExtraRows(J, r, rows, bound) && bound <= more && i < |rows|
    requires a.spends == FollowUp(rows[i].sequence)
    ensures ExtraRows(J + [a], r, Without(rows, i), more)
  {
    MoreActs(c, J, a, r);
    assert forall j :: 0 <= j < |rows| && j != i ==> rows[j].sequence != rows[i].sequence && rows[j] in rows;
    assert forall v <- Without(rows, i) :: exists j :: 0 <= j < |rows| && j != i && rows[j] == v;
    hide Earned, Spent;
  }

  // ---------------------------------------------------------------- the invariant

  /** Everything an act of a present member spent lies behind that member's watermark. */
  ghost predicate SpentBehind(b: Battle, J: seq<Act>) {
    forall a <- J :: a.uid in b.members && a.spends != Nothing ==> a.spends.sequence <= b.Seen(a.uid, 19)
  }

  ghost predicate Ledgers(c: Catalog, b: Battle, J: seq<Act>) {
    && SpentBehind(b, J)
    && (forall r <- b.hits :: r in b.members && HitRows(c, J, r, b.hits[r], b.Seen(r, 19)))
    && (forall r <- b.extras :: r in b.members && ExtraRows(J, r, b.extras[r], b.Seen(r, 19)))
  }

  /** A receipt spends a row recorded earlier, of its own source and skill, that no earlier receipt spent. */
  ghost predicate Justified(c: Catalog, J: seq<Act>, a: Act) {
    && (a.message.body.Receipt? ==> a.spends != Nothing)
    && (a.spends.Report_? ==>
          && a.message.body.Receipt? && !Spent(J, a.uid, a.spends) && a.spends.sequence < a.message.header.sequence19
          && exists w: Witness :: Reported_(c, J, a.uid, w) && w.sequence == a.spends.sequence
               && w.source == a.message.body.source && w.skill == a.message.body.skill
               && a.message.body.status in w.outcomes)
    && (a.spends.FollowUp? ==>
          && a.message.body.Receipt? && !Spent(J, a.uid, a.spends) && a.spends.sequence < a.message.header.sequence19
          && a.message.body.status == 3
          && Earned(J, a.uid, Extra(a.message.body.source, a.message.body.skill, a.spends.sequence)))
  }

  /** What acceptance does to the rows of the one member it concerns. */
  ghost predicate RowsAfter(c: Catalog, b: Battle, r: Uid, m: Message, J: seq<Act>) {
    var more, bound := J + [ActOf(c, b, r, m)], if m.Lane() == 19 then m.header.sequence19 else b.Seen(r, 19);
    HitRows(c, more, r, NewHits(c, b, r, m), bound) && ExtraRows(more, r, NewExtras(b, r, m), bound)
  }

  function NewHits(c: Catalog, b: Battle, r: Uid, m: Message): seq<Witness> {
    if Recorded(c, b.members, r, m) then Newest(Rows(b.hits, r) + [WitnessOf(c, m)])
    else if SpendsWitness(b, r, m) then Without(Rows(b.hits, r), WitnessFor(b, r, m))
    else Rows(b.hits, r)
  }

  function NewExtras(b: Battle, r: Uid, m: Message): seq<Extra> {
    if SpendsWitness(b, r, m) then
      if m.body.status == 1 || m.body.status == 5
      then Newest(Rows(b.extras, r) + [Extra(m.body.source, m.body.skill, m.header.sequence19)])
      else Rows(b.extras, r)
    else if SpendsExtra(b, r, m) then Without(Rows(b.extras, r), ExtraFor(b, r, m))
    else Rows(b.extras, r)
  }

  lemma RecordedRows(c: Catalog, b: Battle, r: Uid, m: Message, J: seq<Act>)
    requires HitRows(c, J, r, Rows(b.hits, r), b.Seen(r, 19)) && ExtraRows(J, r, Rows(b.extras, r), b.Seen(r, 19))
    requires m.header.sequence19 > b.Seen(r, 19) && !Spent(J, r, Report_(m.header.sequence19))
    requires Recorded(c, b.members, r, m)
    ensures RowsAfter(c, b, r, m, J)
  {
    var a := ActOf(c, b, r, m);
    assert Reports(c, a, r, WitnessOf(c, m)) && a.spends == Nothing;
    hide HitRows, ExtraRows, Spent, Newest, Without;
    GrowHitRows(c, J, r, Rows(b.hits, r), b.Seen(r, 19), a, WitnessOf(c, m));
    KeepExtraRows(c, J, r, Rows(b.extras, r), b.Seen(r, 19), a, m.header.sequence19);
  }

  lemma ReceiptRows(c: Catalog, b: Battle, r: Uid, m: Message, J: seq<Act>)
    requires HitRows(c, J, r, Rows(b.hits, r), b.Seen(r, 19)) && ExtraRows(J, r, Rows(b.extras, r), b.Seen(r, 19))
    requires m.header.sequence19 > b.Seen(r, 19) && !Spent(J, r, FollowUp(m.header.sequence19))
    requires SpendsWitness(b, r, m)
    ensures RowsAfter(c, b, r, m, J)
  {
    var a, i := ActOf(c, b, r, m), WitnessFor(b, r, m);
    var extras := Rows(b.extras, r);
    assert a.spends == Report_(Rows(b.hits, r)[i].sequence) && a.uid == r && a.message == m;
    hide HitRows, ExtraRows, Spent, Newest, Without, WitnessFor, ActOf;
    SpendHitRows(c, J, r, Rows(b.hits, r), b.Seen(r, 19), a, i, m.header.sequence19);
    if m.body.status == 1 || m.body.status == 5 {
      GrowExtraRows(c, J, r, extras, b.Seen(r, 19), a, Extra(m.body.source, m.body.skill, m.header.sequence19));
    } else {
      KeepExtraRows(c, J, r, extras, b.Seen(r, 19), a, m.header.sequence19);
    }
  }

  lemma FollowUpRows(c: Catalog, b: Battle, r: Uid, m: Message, J: seq<Act>)
    requires HitRows(c, J, r, Rows(b.hits, r), b.Seen(r, 19)) && ExtraRows(J, r, Rows(b.extras, r), b.Seen(r, 19))
    requires m.header.sequence19 > b.Seen(r, 19) && SpendsExtra(b, r, m)
    ensures RowsAfter(c, b, r, m, J)
  {
    var a, i := ActOf(c, b, r, m), ExtraFor(b, r, m);
    assert a.spends == FollowUp(Rows(b.extras, r)[i].sequence);
    assert NewHits(c, b, r, m) == Rows(b.hits, r) && NewExtras(b, r, m) == Without(Rows(b.extras, r), i);
    hide HitRows, ExtraRows, Spent, Newest, Without, ExtraFor, ActOf, NewHits, NewExtras;
    KeepHitRows(c, J, r, Rows(b.hits, r), b.Seen(r, 19), a, m.header.sequence19);
    SpendExtraRows(c, J, r, Rows(b.extras, r), b.Seen(r, 19), a, i, m.header.sequence19);
  }

  lemma PlainRows(c: Catalog, b: Battle, r: Uid, m: Message, J: seq<Act>)
    requires HitRows(c, J, r, Rows(b.hits, r), b.Seen(r, 19)) && ExtraRows(J, r, Rows(b.extras, r), b.Seen(r, 19))
    requires m.Lane() == 19 ==> m.header.sequence19 > b.Seen(r, 19)
    requires !Recorded(c, b.members, r, m) && !SpendsWitness(b, r, m) && !SpendsExtra(b, r, m)
    ensures RowsAfter(c, b, r, m, J)
  {
    var a := ActOf(c, b, r, m);
    assert a.spends == Nothing;
    hide HitRows, ExtraRows, ActOf, Recorded, SpendsWitness, SpendsExtra;
    var bound := if m.Lane() == 19 then m.header.sequence19 else b.Seen(r, 19);
    KeepHitRows(c, J, r, Rows(b.hits, r), b.Seen(r, 19), a, bound);
    KeepExtraRows(c, J, r, Rows(b.extras, r), b.Seen(r, 19), a, bound);
  }

  /** An accepted receipt always spends something. */
  lemma ReceiptsSpend(c: Catalog, b: Battle, e: Event)
    requires Accepted(c, b, e) && e.message.body.Receipt?
    ensures ActOf(c, b, e.uid, e.message).spends != Nothing
  {
  }

  lemma AcceptRows(c: Catalog, b: Battle, e: Event, J: seq<Act>)
    requires Ledgers(c, b, J) && Accepted(c, b, e)
    ensures RowsAfter(c, b, e.uid, e.message, J)
    ensures Justified(c, J, ActOf(c, b, e.uid, e.message))
  {
    var r, m := e.uid, e.message;
    AcceptedIsNewer(c, b, e);
    assert HitRows(c, J, r, Rows(b.hits, r), b.Seen(r, 19)) && ExtraRows(J, r, Rows(b.extras, r), b.Seen(r, 19));
    NothingAhead(b, J, r);
    if m.body.Receipt? {
      ReceiptsSpend(c, b, e);
    }
    ActIsJustified(c, b, r, m, J);
    hide Accepted, HitRows, ExtraRows, Spent, Ledgers, RowsAfter, Justified, ActOf;
    if Recorded(c, b.members, r, m) {
      RecordedRows(c, b, r, m, J);
    } else if SpendsWitness(b, r, m) {
      ReceiptRows(c, b, r, m, J);
    } else if SpendsExtra(b, r, m) {
      FollowUpRows(c, b, r, m, J);
    } else {
      PlainRows(c, b, r, m, J);
    }
  }

  lemma ActIsJustified(c: Catalog, b: Battle, r: Uid, m: Message, J: seq<Act>)
    requires HitRows(c, J, r, Rows(b.hits, r), b.Seen(r, 19)) && ExtraRows(J, r, Rows(b.extras, r), b.Seen(r, 19))
    requires m.body.Receipt? ==> ActOf(c, b, r, m).spends != Nothing
    ensures Justified(c, J, ActOf(c, b, r, m))
  {
    hide HitRows, ExtraRows, Reported_, Earned, Spent;
    if SpendsWitness(b, r, m) {
      SpentRow(c, J, r, Rows(b.hits, r), b.Seen(r, 19), WitnessFor(b, r, m));
    } else if SpendsExtra(b, r, m) {
      SpentExtra(J, r, Rows(b.extras, r), b.Seen(r, 19), ExtraFor(b, r, m));
    }
  }

  lemma SpentRow(c: Catalog, J: seq<Act>, r: Uid, rows: seq<Witness>, bound: int, i: nat)
    requires HitRows(c, J, r, rows, bound) && i < |rows|
    ensures Reported_(c, J, r, rows[i]) && !Spent(J, r, Report_(rows[i].sequence))
  {
    assert rows[i] in rows;
  }

  lemma SpentExtra(J: seq<Act>, r: Uid, rows: seq<Extra>, bound: int, i: nat)
    requires ExtraRows(J, r, rows, bound) && i < |rows|
    ensures Earned(J, r, rows[i]) && !Spent(J, r, FollowUp(rows[i].sequence))
  {
    assert rows[i] in rows;
  }

  lemma NothingAhead(b: Battle, J: seq<Act>, r: Uid)
    requires SpentBehind(b, J) && r in b.members
    ensures forall q :: q > b.Seen(r, 19) ==> !Spent(J, r, Report_(q)) && !Spent(J, r, FollowUp(q))
  {
  }

  lemma CommitSeen(c: Catalog, b: Battle, uid: Uid, m: Message)
    ensures var x := Commit(c, b, uid, m);
      && (forall u: Uid :: u != uid ==> x.Seen(u, 19) == b.Seen(u, 19))
      && x.Seen(uid, 19) == (if m.Lane() == 19 then m.header.sequence19 else b.Seen(uid, 19))
      && x.members == b.members
  {
    hide HitsAfter, ExtrasAfter, HoldsAfter, ProjectilesAfter, StatesAfter, CollectiblesAfter, MotionAfter;
  }

  lemma CommitRows(c: Catalog, b: Battle, uid: Uid, m: Message)
    ensures var x := Commit(c, b, uid, m);
      && (forall r: Uid :: r != uid ==> Rows(x.hits, r) == Rows(b.hits, r) && Rows(x.extras, r) == Rows(b.extras, r))
      && x.hits.Keys <= b.hits.Keys + {uid} && x.extras.Keys <= b.extras.Keys + {uid}
      && Rows(x.hits, uid) == NewHits(c, b, uid, m) && Rows(x.extras, uid) == NewExtras(b, uid, m)
  {
    hide HoldsAfter, ProjectilesAfter, StatesAfter, CollectiblesAfter, MotionAfter,
      Newest, Without, WitnessFor, ExtraFor;
  }

  lemma StepAccepted(c: Catalog, b: Battle, e: Event, J: seq<Act>)
    requires Ledgers(c, b, J) && Accepted(c, b, e)
    ensures Ledgers(c, Commit(c, b, e.uid, e.message), J + [ActOf(c, b, e.uid, e.message)])
  {
    AcceptRows(c, b, e, J);
    AcceptedIsNewer(c, b, e);
    CommitSeen(c, b, e.uid, e.message);
    CommitRows(c, b, e.uid, e.message);
    SpendsGeneric(c, b, e.uid, e.message);
    hide Commit, Accepted, ActOf, HitRows, ExtraRows, NewHits, NewExtras, Rows;
    RestOfHits(c, b, Commit(c, b, e.uid, e.message), e.uid, J, ActOf(c, b, e.uid, e.message));
    RestOfExtras(c, b, Commit(c, b, e.uid, e.message), e.uid, J, ActOf(c, b, e.uid, e.message));
    RestOfSpending(b, Commit(c, b, e.uid, e.message), J, ActOf(c, b, e.uid, e.message));
  }

  lemma RestOfSpending(b: Battle, x: Battle, J: seq<Act>, a: Act)
    requires SpentBehind(b, J) && x.members == b.members && forall u: Uid :: b.Seen(u, 19) <= x.Seen(u, 19)
    requires a.spends != Nothing ==> a.spends.sequence <= x.Seen(a.uid, 19)
    ensures SpentBehind(x, J + [a])
  {
    assert forall w <- J + [a] :: w in J || w == a;
  }

  /** The rows of everyone else keep their backing. */
  lemma RestOfHits(c: Catalog, b: Battle, x: Battle, u: Uid, J: seq<Act>, a: Act)
    requires forall r <- b.hits :: r in b.members && HitRows(c, J, r, b.hits[r], b.Seen(r, 19))
    requires forall r: Uid :: r != u ==> Rows(x.hits, r) == Rows(b.hits, r) && x.Seen(r, 19) == b.Seen(r, 19)
    requires x.hits.Keys <= b.hits.Keys + {u} && x.members == b.members && u in b.members && a.uid == u
    requires HitRows(c, J + [a], u, Rows(x.hits, u), x.Seen(u, 19))
    ensures forall r <- x.hits :: r in x.members && HitRows(c, J + [a], r, x.hits[r], x.Seen(r, 19))
  {
    hide HitRows;
    forall r | r in x.hits
      ensures r in x.members && HitRows(c, J + [a], r, x.hits[r], x.Seen(r, 19))
    {
      if r != u {
        assert r in b.hits && x.hits[r] == Rows(x.hits, r) == b.hits[r];
        KeepHitRows(c, J, r, b.hits[r], b.Seen(r, 19), a, x.Seen(r, 19));
      }
    }
  }

  lemma RestOfExtras(c: Catalog, b: Battle, x: Battle, u: Uid, J: seq<Act>, a: Act)
    requires forall r <- b.extras :: r in b.members && ExtraRows(J, r, b.extras[r], b.Seen(r, 19))
    requires forall r: Uid :: r != u ==> Rows(x.extras, r) == Rows(b.extras, r) && x.Seen(r, 19) == b.Seen(r, 19)
    requires x.extras.Keys <= b.extras.Keys + {u} && x.members == b.members && u in b.members && a.uid == u
    requires ExtraRows(J + [a], u, Rows(x.extras, u), x.Seen(u, 19))
    ensures forall r <- x.extras :: r in x.members && ExtraRows(J + [a], r, x.extras[r], x.Seen(r, 19))
  {
    hide ExtraRows;
    forall r | r in x.extras
      ensures r in x.members && ExtraRows(J + [a], r, x.extras[r], x.Seen(r, 19))
    {
      if r != u {
        assert r in b.extras && x.extras[r] == Rows(x.extras, r) == b.extras[r];
        KeepExtraRows(c, J, r, b.extras[r], b.Seen(r, 19), a, x.Seen(r, 19));
      }
    }
  }

  /** Only receipts spend, and they spend rows older than themselves. */
  lemma SpendsGeneric(c: Catalog, b: Battle, uid: Uid, m: Message)
    ensures ActOf(c, b, uid, m).uid == uid && ActOf(c, b, uid, m).message == m
    ensures var s := ActOf(c, b, uid, m).spends; s != Nothing ==> m.Lane() == 19 && s.sequence < m.header.sequence19
  {
  }

  lemma PrependRising(x: Witness, rest: seq<Witness>)
    requires Rising(rest) && forall w <- rest :: x.sequence < w.sequence
    ensures Rising([x] + rest)
  {
    assert forall j :: 0 < j < |[x] + rest| ==> ([x] + rest)[j] == rest[j - 1] && rest[j - 1] in rest;
  }

  lemma OtherWitnessesRising(rows: seq<Witness>, uid: Uid)
    requires Rising(rows)
    ensures Rising(OtherWitnesses(rows, uid)) && forall w <- OtherWitnesses(rows, uid) :: w in rows
  {
    if rows != [] {
      assert forall w <- rows[1..] :: w in rows && rows[0].sequence < w.sequence;
      OtherWitnessesRising(rows[1..], uid);
      hide Rising;
      var rest := OtherWitnesses(rows[1..], uid);
      PrependRising(rows[0], rest);
      assert OtherWitnesses(rows, uid) == (if rows[0].source != uid then [rows[0]] else []) + rest;
      assert [] + rest == rest;
    }
  }

  lemma PrependRisingExtras(x: Extra, rest: seq<Extra>)
    requires RisingExtras(rest) && forall e <- rest :: x.sequence < e.sequence
    ensures RisingExtras([x] + rest)
  {
    assert forall j :: 0 < j < |[x] + rest| ==> ([x] + rest)[j] == rest[j - 1] && rest[j - 1] in rest;
  }

  lemma OtherExtrasRising(rows: seq<Extra>, uid: Uid)
    requires RisingExtras(rows)
    ensures RisingExtras(OtherExtras(rows, uid)) && forall e <- OtherExtras(rows, uid) :: e in rows
  {
    if rows != [] {
      assert forall e <- rows[1..] :: e in rows && rows[0].sequence < e.sequence;
      OtherExtrasRising(rows[1..], uid);
      hide RisingExtras;
      var rest := OtherExtras(rows[1..], uid);
      PrependRisingExtras(rows[0], rest);
      assert OtherExtras(rows, uid) == (if rows[0].source != uid then [rows[0]] else []) + rest;
      assert [] + rest == rest;
    }
  }

  lemma LeaveFields(b: Battle, uid: Uid)
    requires b.live && uid in b.members && uid !in b.Fighters()
    ensures var x := Leave(b, uid);
      && x.hits == Kept(b.hits, uid) && x.extras == KeptExtras(b.extras, uid) && x.members == b.members - {uid}
      && forall u :: u != uid ==> x.Seen(u, 19) == b.Seen(u, 19)
  {
    UnseatFields(b, uid);
    hide Unseat;
    ForgetKeepsOthers(b, uid);
  }

  lemma StepDeparted(c: Catalog, b: Battle, uid: Uid, J: seq<Act>)
    requires Ledgers(c, b, J)
    ensures Ledgers(c, Leave(b, uid), J)
  {
    if b.live && uid in b.members && uid !in b.Fighters() {
      var x := Leave(b, uid);
      LeaveFields(b, uid);
      hide Leave;
      forall r | r in x.hits
        ensures r in x.members && HitRows(c, J, r, x.hits[r], x.Seen(r, 19))
      {
        DepartedHits(c, J, r, b.hits[r], b.Seen(r, 19), uid);
        hide HitRows;
      }
      forall r | r in x.extras
        ensures r in x.members && ExtraRows(J, r, x.extras[r], x.Seen(r, 19))
      {
        DepartedExtras(J, r, b.extras[r], b.Seen(r, 19), uid);
        hide ExtraRows;
      }
    }
  }

  lemma DepartedHits(c: Catalog, J: seq<Act>, r: Uid, rows: seq<Witness>, seen: int, uid: Uid)
    requires HitRows(c, J, r, rows, seen)
    ensures HitRows(c, J, r, OtherWitnesses(rows, uid), seen)
  {
    OtherWitnessesRising(rows, uid);
    hide Reported_, Spent, Rising;
  }

  lemma DepartedExtras(J: seq<Act>, r: Uid, rows: seq<Extra>, seen: int, uid: Uid)
    requires ExtraRows(J, r, rows, seen)
    ensures ExtraRows(J, r, OtherExtras(rows, uid), seen)
  {
    OtherExtrasRising(rows, uid);
    hide Earned, Spent, RisingExtras;
  }

  lemma LedgersTransfer(c: Catalog, x: Battle, y: Battle, J: seq<Act>)
    requires SameLedgers(x, y) && Ledgers(c, y, J)
    ensures Ledgers(c, x, J)
  {
    hide HitRows, ExtraRows;
    assert forall u :: x.Seen(u, 19) == y.Seen(u, 19);
  }

  lemma {:induction false} RunKeepsLedgers(c: Catalog, start: Battle, events: seq<Event>)
    requires Begins(start)
    ensures Ledgers(c, Run(c, start, events), Journal(c, start, events))
  {
    if events != [] {
      var before, e := events[..|events| - 1], events[|events| - 1];
      RunKeepsLedgers(c, start, before);
      var b, J := Run(c, start, before), Journal(c, start, before);
      StepWrites(c, b, e);
      hide Ledgers, SameLedgers, Commit, Accepted, ActOf, Step;
      if Accepted(c, b, e) {
        StepAccepted(c, b, e, J);
        LedgersTransfer(c, Step(c, b, e), Commit(c, b, e.uid, e.message), J + [ActOf(c, b, e.uid, e.message)]);
      } else {
        assert J + [] == J;
        if e.Departed? {
          StepDeparted(c, b, e.uid, J);
          assert Step(c, b, e) == Leave(b, e.uid) by {
            StepOfDeparture(c, b, e);
          }
        } else {
          LedgersTransfer(c, Step(c, b, e), b, J);
        }
      }
    }
  }

  lemma StepOfDeparture(c: Catalog, b: Battle, e: Event)
    requires e.Departed?
    ensures Step(c, b, e) == Leave(b, e.uid) && !Accepted(c, b, e)
  {
  }

  // ---------------------------------------------------------------- the theorems

  /**
   * Every accepted receipt spends a right of its own: a normal one an earlier hit report of the same reporter,
   * source and skill, an extra one an earlier normal receipt of status 1 or 5, always older than itself and
   * never spent before. There is no third kind.
   */
  lemma {:induction false} ReceiptsSpendOwnWitness(c: Catalog, start: Battle, events: seq<Event>, i: nat)
    requires Begins(start) && i < |Journal(c, start, events)|
    ensures var J := Journal(c, start, events); Justified(c, J[..i], J[i])
  {
    if events != [] {
      var before, e := events[..|events| - 1], events[|events| - 1];
      var b, J := Run(c, start, before), Journal(c, start, before);
      if i < |J| {
        ReceiptsSpendOwnWitness(c, start, before, i);
        assert Journal(c, start, events)[..i] == J[..i];
      } else {
        RunKeepsLedgers(c, start, before);
        AcceptRows(c, b, e, J);
        assert Journal(c, start, events)[..i] == J;
      }
    }
  }

  // ---------------------------------------------------------------- counting

  /** Accepted hit reports of one reporter, source and skill that left a witness. */
  function ReportsOf(J: seq<Act>, r: Uid, source: Uid, skill: int): set<int> {
    set i | 0 <= i < |J| && IsReport(J[i], r, source, skill)
  }

  predicate IsReport(a: Act, r: Uid, source: Uid, skill: int) {
    a.recorded && a.uid == r && a.message.body.Hit? && a.message.body.source == source && a.message.body.skill == skill
  }

  predicate IsReceipt(a: Act, r: Uid, source: Uid, skill: int) {
    a.uid == r && a.message.body.Receipt? && a.message.body.source == source && a.message.body.skill == skill
  }

  /** All accepted receipts, whatever they spend. */
  function ReceiptsOf(J: seq<Act>, r: Uid, source: Uid, skill: int): set<int> {
    set i | 0 <= i < |J| && IsReceipt(J[i], r, source, skill)
  }

  function NormalsOf(J: seq<Act>, r: Uid, source: Uid, skill: int): set<int> {
    set i | 0 <= i < |J| && IsReceipt(J[i], r, source, skill) && J[i].spends.Report_?
  }

  /** Normal receipts of status 1 or 5, the ones that may be followed up. */
  function TerminalsOf(J: seq<Act>, r: Uid, source: Uid, skill: int): set<int> {
    set i | i in NormalsOf(J, r, source, skill) && J[i].message.body.status in {1, 5}
  }

  function FollowUpsOf(J: seq<Act>, r: Uid, source: Uid, skill: int): set<int> {
    set i | 0 <= i < |J| && IsReceipt(J[i], r, source, skill) && J[i].spends.FollowUp?
  }

  /** Index of the act a receipt is paid by, when there is one. */
  ghost predicate Pays(c: Catalog, J: seq<Act>, i: int, j: int)
    requires 0 <= i < |J|
  {
    && 0 <= j < |J|
    && (J[i].spends.Report_? ==> J[j].recorded && J[j].uid == J[i].uid && J[j].message.body.Hit?
                                 && WitnessOf(c, J[j].message).sequence == J[i].spends.sequence)
    && (J[i].spends.FollowUp? ==> J[j].uid == J[i].uid && J[j].message.body.Receipt? && J[j].spends.Report_?
                                  && J[j].message.header.sequence19 == J[i].spends.sequence)
  }

  lemma NormalIsPaid(c: Catalog, J: seq<Act>, i: int, r: Uid, source: Uid, skill: int) returns (j: int)
    requires 0 <= i < |J| && Justified(c, J[..i], J[i]) && i in NormalsOf(J, r, source, skill)
    ensures Pays(c, J, i, j) && j in ReportsOf(J, r, source, skill)
  {
    var w: Witness :| Reported_(c, J[..i], r, w) && w.sequence == J[i].spends.sequence
                      && w.source == source && w.skill == skill;
    var a :| a in J[..i] && Reports(c, a, r, w);
    j :| 0 <= j < i && J[..i][j] == a;
    assert J[j] == a;
  }

  lemma FollowUpIsPaid(c: Catalog, J: seq<Act>, i: int, r: Uid, source: Uid, skill: int) returns (j: int)
    requires 0 <= i < |J| && Justified(c, J[..i], J[i]) && i in FollowUpsOf(J, r, source, skill)
    ensures Pays(c, J, i, j) && j in TerminalsOf(J, r, source, skill)
  {
    var a :| a in J[..i] && Earns(a, r, Extra(source, skill, J[i].spends.sequence));
    j :| 0 <= j < i && J[..i][j] == a;
    assert J[j] == a;
  }

  lemma SpendingsDiffer(c: Catalog, J: seq<Act>, i: int, j: int)
    requires 0 <= i < j < |J| && Justified(c, J[..j], J[j]) && J[i].uid == J[j].uid && J[j].spends != Nothing
    ensures J[i].spends != J[j].spends
  {
    assert J[..j][i] == J[i] && J[i] in J[..j];
  }

  /** One payer never pays for two receipts of one kind. */
  lemma PayersDiffer(c: Catalog, J: seq<Act>, i: int, j: int, k: int)
    requires forall n :: 0 <= n < |J| ==> Justified(c, J[..n], J[n])
    requires 0 <= i < |J| && 0 <= j < |J| && J[i].uid == J[j].uid && J[i].spends != Nothing
    requires J[i].spends.Report_? == J[j].spends.Report_? && J[i].spends.FollowUp? == J[j].spends.FollowUp?
    requires Pays(c, J, i, k) && Pays(c, J, j, k)
    ensures i == j
  {
    hide Justified;
    if i < j {
      SpendingsDiffer(c, J, i, j);
    } else if j < i {
      SpendingsDiffer(c, J, j, i);
    }
  }

  lemma ReceiptsAreOfTwoKinds(c: Catalog, J: seq<Act>, r: Uid, source: Uid, skill: int)
    requires forall n :: 0 <= n < |J| ==> Justified(c, J[..n], J[n])
    ensures ReceiptsOf(J, r, source, skill) == NormalsOf(J, r, source, skill) + FollowUpsOf(J, r, source, skill)
    ensures NormalsOf(J, r, source, skill) !! FollowUpsOf(J, r, source, skill)
  {
    forall i | i in ReceiptsOf(J, r, source, skill)
      ensures i in NormalsOf(J, r, source, skill) || i in FollowUpsOf(J, r, source, skill)
    {
      assert Justified(c, J[..i], J[i]);
      hide Reported_, Earned, Spent;
    }
  }

  /**
   * For each reporter, source and skill: the accepted receipts are the normal ones and the follow-ups, and neither
   * kind ever outnumbers what it is a receipt of.
   */
  lemma ReceiptsConserved(c: Catalog, start: Battle, events: seq<Event>, r: Uid, source: Uid, skill: int)
    requires Begins(start)
    ensures var J := Journal(c, start, events);
      && ReceiptsOf(J, r, source, skill) == NormalsOf(J, r, source, skill) + FollowUpsOf(J, r, source, skill)
      && NormalsOf(J, r, source, skill) !! FollowUpsOf(J, r, source, skill)
      && |NormalsOf(J, r, source, skill)| <= |ReportsOf(J, r, source, skill)|
      && |FollowUpsOf(J, r, source, skill)| <= |TerminalsOf(J, r, source, skill)|
  {
    var J := Journal(c, start, events);
    forall n | 0 <= n < |J|
      ensures Justified(c, J[..n], J[n])
    {
      ReceiptsSpendOwnWitness(c, start, events, n);
    }
    hide Justified, Journal, ReceiptsOf, NormalsOf, FollowUpsOf;
    ReceiptsAreOfTwoKinds(c, J, r, source, skill);
    NormalsBounded(c, J, r, source, skill);
    FollowUpsBounded(c, J, r, source, skill);
  }

  ghost function Payer(c: Catalog, J: seq<Act>, i: int, payers: set<int>): int
    requires 0 <= i < |J| && exists j :: j in payers && Pays(c, J, i, j)
  {
    var j :| j in payers && Pays(c, J, i, j);
    j
  }

  lemma NormalsBounded(c: Catalog, J: seq<Act>, r: Uid, source: Uid, skill: int)
    requires forall n :: 0 <= n < |J| ==> Justified(c, J[..n], J[n])
    ensures |NormalsOf(J, r, source, skill)| <= |ReportsOf(J, r, source, skill)|
  {
    hide Justified, Pays;
    var A, B := NormalsOf(J, r, source, skill), ReportsOf(J, r, source, skill);
    forall i | i in A
      ensures exists j :: j in B && Pays(c, J, i, j)
    {
      var j := NormalIsPaid(c, J, i, r, source, skill);
    }
    var f := map i | i in A :: Payer(c, J, i, B);
    forall i, j | i in A && j in A && f[i] == f[j]
      ensures i == j
    {
      PayersDiffer(c, J, i, j, f[i]);
    }
    InjectionBound(A, B, f);
  }

  lemma FollowUpsBounded(c: Catalog, J: seq<Act>, r: Uid, source: Uid, skill: int)
    requires forall n :: 0 <= n < |J| ==> Justified(c, J[..n], J[n])
    ensures |FollowUpsOf(J, r, source, skill)| <= |TerminalsOf(J, r, source, skill)|
  {
    hide Justified, Pays;
    var A, B := FollowUpsOf(J, r, source, skill), TerminalsOf(J, r, source, skill);
    forall i | i in A
      ensures exists j :: j in B && Pays(c, J, i, j)
    {
      var j := FollowUpIsPaid(c, J, i, r, source, skill);
    }
    var f := map i | i in A :: Payer(c, J, i, B);
    forall i, j | i in A && j in A && f[i] == f[j]
      ensures i == j
    {
      PayersDiffer(c, J, i, j, f[i]);
    }
    InjectionBound(A, B, f);
  }
}
