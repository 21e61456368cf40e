/** Over every run: who consented to a match that starts, and what the delay probe established. */
module InformedStart {
  import opened RoomState
  import opened RoomRules
  import opened RoomSeating
  import opened RoomBarriers
  import opened RoomStart

  predicate Consents(e: Event, u: Uid) {
    (e.Readies? && e.uid == u) || (e.Begins? && e.uid == u)
  }

  predicate ReadyIn(r: Room, u: Uid) { u in r.members && r.members[u].ready }

  /** The member's own event set the flag; since then it has stood, and the line-up has not changed. */
  ghost predicate GivenSince(h: Policy, start: Room, events: seq<Moment>, u: Uid) {
    exists i :: 0 <= i < |events| && Sets(h, start, events, i, u) && Stands(h, start, events, i)
                && StaysReady(h, start, events, i, u)
  }

  ghost predicate Sets(h: Policy, start: Room, events: seq<Moment>, i: nat, u: Uid)
    requires i < |events|
  {
    Consents(events[i].event, u) && !ReadyIn(Run(h, start, events[..i]), u)
  }

  ghost predicate StaysReady(h: Policy, start: Room, events: seq<Moment>, i: nat, u: Uid) {
    forall j: nat :: i <= j < |events| ==> ReadyAfter(h, start, events, j, u)
  }

  ghost predicate ReadyAfter(h: Policy, start: Room, events: seq<Moment>, j: nat, u: Uid)
    requires j < |events|
  {
    ReadyIn(Run(h, start, events[..j + 1]), u)
  }

  ghost predicate Stands(h: Policy, start: Room, events: seq<Moment>, i: nat) {
    forall j: nat :: i <= j < |events| ==> SameLineup(Run(h, start, events[..j + 1]), Run(h, start, events[..j]))
  }

  lemma GivenStays(h: Policy, start: Room, events: seq<Moment>, u: Uid)
    requires events != [] && GivenSince(h, start, events[..|events| - 1], u)
    requires SameLineup(Run(h, start, events), Run(h, start, events[..|events| - 1]))
    requires ReadyIn(Run(h, start, events), u)
    ensures GivenSince(h, start, events, u)
  {
    hide Run, SameLineup, ReadyIn;
    var n := |events| - 1;
    var before := events[..n];
    var i :| 0 <= i < n && Sets(h, start, before, i, u) && Stands(h, start, before, i)
             && StaysReady(h, start, before, i, u);
    forall j: nat | i <= j < |events|
      ensures SameLineup(Run(h, start, events[..j + 1]), Run(h, start, events[..j]))
      ensures ReadyAfter(h, start, events, j, u)
    {
      if j < n {
        assert before[..j + 1] == events[..j + 1] && before[..j] == events[..j];
        assert ReadyAfter(h, start, before, j, u);
      } else {
        assert events[..j + 1] == events;
      }
    }
    assert before[..i] == events[..i];
    assert Sets(h, start, events, i, u) && Stands(h, start, events, i) && StaysReady(h, start, events, i, u);
  }

  lemma GivenNow(h: Policy, start: Room, events: seq<Moment>, u: Uid)
    requires events != [] && Consents(events[|events| - 1].event, u)
    requires SameLineup(Run(h, start, events), Run(h, start, events[..|events| - 1]))
    requires !ReadyIn(Run(h, start, events[..|events| - 1]), u) && ReadyIn(Run(h, start, events), u)
    ensures GivenSince(h, start, events, u)
  {
    hide Run, SameLineup, ReadyIn;
    var n := |events| - 1;
    assert events[..n + 1] == events;
    assert Sets(h, start, events, n, u) && Stands(h, start, events, n) && StaysReady(h, start, events, n, u);
  }

  /** Ready flags of the next state: old ones under the same line-up, or the sender's own consent just now. */
  ghost predicate Sourced(x: Room, r: Room, e: Event) {
    SameLineup(x, r) && forall u <- x.members :: x.members[u].ready ==> Consents(e, u) || r.members[u].ready
  }

  lemma StepSourced(h: Policy, r: Room, e: Event, w: World)
    requires Running(r) && !r.gone && r.stage == Waiting
    ensures var x := Step(h, r, e, w); x.gone || Hushed(x) || Sourced(x, r, e)
  {
    if e.Readies? {
      ReadyEffects(h, r, e.uid, w, e.plan);
      hide Ready, Running, FightersReady, IdentityOf;
    } else if e.Begins? {
      TutorialEffects(h, r, e.uid, w);
      hide TutorialReady, Running;
    } else if e.Answers? {
      AnswerEffects(h, r, e.uid, w, e.plan);
      hide DelayReply, Running, IdentityOf;
    } else {
      hide Step, Running;
      StepConsents(h, r, e, w);
    }
  }

  ghost predicate AllGiven(h: Policy, start: Room, events: seq<Moment>) {
    forall u <- Run(h, start, events).members ::
      Run(h, start, events).members[u].ready ==> GivenSince(h, start, events, u)
  }

  lemma SourcedGiven(h: Policy, start: Room, events: seq<Moment>)
    requires events != []
    requires var n := |events| - 1; var r := Run(h, start, events[..n]);
      AllGiven(h, start, events[..n]) && Sourced(Run(h, start, events), r, events[n].event)
    ensures AllGiven(h, start, events)
  {
    var n := |events| - 1;
    var x, r := Run(h, start, events), Run(h, start, events[..n]);
    forall u | u in x.members && x.members[u].ready
      ensures GivenSince(h, start, events, u)
    {
      assert u in r.members;
      hide GivenSince, SameSeats;
      if r.members[u].ready {
        GivenStays(h, start, events, u);
      } else {
        GivenNow(h, start, events, u);
      }
    }
  }

  lemma HushedGiven(h: Policy, start: Room, events: seq<Moment>)
    requires Hushed(Run(h, start, events))
    ensures AllGiven(h, start, events)
  {
  }

  lemma OpenedHushed(h: Policy, r: Room)
    requires Opened(h, r)
    ensures Hushed(r)
  {
    var uid, s, connection, w :| uid != 0 && connection != 0 && Admitted(s) && r == Create(h, uid, s, connection, w)
                                  && r.members != map[];
    CreateHushed(h, uid, s, connection, w);
  }

  lemma CreateHushed(h: Policy, uid: Uid, s: Settings, connection: int, w: World)
    ensures Hushed(Create(h, uid, s, connection, w))
  {
    UnreadyHushes(map[]);
    hide SeatFor, InstallAllowed, Unready;
  }

  /** In every reachable waiting room every ready flag is a consent to the present line-up. */
  lemma {:induction false} ReadyMeansConsent(h: Policy, start: Room, events: seq<Moment>)
    requires Opened(h, start)
    ensures !Run(h, start, events).gone && Run(h, start, events).stage == Waiting ==> AllGiven(h, start, events)
  {
    if events == [] {
      OpenedHushed(h, start);
      HushedGiven(h, start, events);
    } else {
      var n := |events| - 1;
      var r, x, e, w := Run(h, start, events[..n]), Run(h, start, events), events[n].event, events[n].world;
      ReadyMeansConsent(h, start, events[..n]);
      RunRunning(h, start, events[..n]);
      assert x == Step(h, r, e, w);
      hide Step, Run, Running, AllGiven, Hushed, Sourced, Modal, Opened;
      if r.gone {
        GoneStays(h, r, e, w);
      } else if r.stage == Waiting {
        StepSourced(h, r, e, w);
        if x.gone {
        } else if Hushed(x) {
          HushedGiven(h, start, events);
        } else {
          SourcedGiven(h, start, events);
        }
      } else {
        ReturnHushes(h, r, e, w);
        if !x.gone && x.stage == Waiting {
          HushedGiven(h, start, events);
        }
      }
    }
  }

  // ---------------------------------------------------------------- the start itself

  /** Outside the tutorial only a ready request or a probe answer starts a match. */
  lemma StartsBy(h: Policy, r: Room, e: Event, w: World)
    requires Running(r) && !r.gone && r.stage == Waiting && r.settings.mode != TUTORIAL
    requires !Step(h, r, e, w).gone && Step(h, r, e, w).stage != Waiting
    ensures e.Readies? || e.Answers?
  {
    if e.Begins? {
      TutorialEffects(h, r, e.uid, w);
    } else if !e.Readies? && !e.Answers? {
      StepConsents(h, r, e, w);
      hide Step, Running, Calm, Hushed;
    }
  }

  /** The captured identity of a pending probe says that every fighter was ready. */
  ghost predicate ProbeReady(r: Room) {
    r.probe.Some? ==> forall u <- r.probe.value.identity.seats ::
      !r.probe.value.identity.seats[u].spectator ==> r.probe.value.identity.seats[u].ready
  }

  lemma ReadyProbe(x: Room, now: real)
    requires FightersReady(x) && x.probe == Some(Probe(now, IdentityOf(x), x.Fighters()))
    ensures ProbeReady(x)
  {
  }

  lemma StepProbe(h: Policy, r: Room, e: Event, w: World)
    requires Seated(r) && Running(r) && Modal(h, r) && !r.gone && ProbeReady(r)
    ensures ProbeReady(Step(h, r, e, w))
  {
    var x := Step(h, r, e, w);
    if r.stage == Waiting && e.Readies? {
      ReadyEffects(h, r, e.uid, w, e.plan);
      assert x == Ready(h, r, e.uid, w, e.plan);
      hide Ready, Running, Seated, Modal, FightersReady, IdentityOf, SameLineup;
      if x.probe != r.probe {
        ReadyProbe(x, w.now);
      }
    } else if r.stage == Waiting && e.Answers? {
      AnswerEffects(h, r, e.uid, w, e.plan);
      hide DelayReply, Running, Seated, Modal, IdentityOf, SameLineup;
    } else {
      ProbeUntouched(h, r, e, w);
      hide Step, Running, Seated, Modal;
    }
  }

  /** Other events keep the probe as it is or cancel it. */
  lemma ProbeUntouched(h: Policy, r: Room, e: Event, w: World)
    requires !(r.stage == Waiting && (e.Readies? || e.Answers?)) && !r.gone
    ensures Step(h, r, e, w).probe == r.probe || Step(h, r, e, w).probe == None
  {
    match e {
      case Departs(uid) => LeaveProbe(h, r, uid, w);
      case Drops(uid) =>
        LeaveProbe(h, r, uid, w);
        hide Leave;
      case Tick =>
        LeaveProbe(h, r, r.owner, w);
        hide Leave, IdentityOf, Unready;
      case TickMember(uid) =>
        LeaveProbe(h, r.(suspended := r.suspended - {uid}), uid, w);
        hide Leave;
      case Removes(uid, target) =>
        LeaveProbe(h, r, target, w);
        hide Leave;
      case Loads(uid) =>
        AdvanceLeavesProbe(h, r.(loaded := r.loaded + {uid}), w);
        hide Advance;
      case Inputs(uid) =>
        AdvanceLeavesProbe(h, r.(input := r.input + {uid}), w);
        hide Advance;
      case Acknowledges(uid) =>
        AdvanceLeavesProbe(h, r.(acks := r.acks + {uid}), w);
        hide Advance;
      case _ => RequestProbe(h, r, e, w);
    }
  }

  lemma LeaveProbe(h: Policy, r: Room, uid: Uid, w: World)
    ensures Leave(h, r, uid, w).probe == r.probe || Leave(h, r, uid, w).probe == None
  {
    DropFields(r, uid);
    AdvanceLeavesProbe(h, Drop(r, uid), w);
    hide Drop, Advance, Unready, Heir;
  }

  lemma RequestProbe(h: Policy, r: Room, e: Event, w: World)
    requires !(r.stage == Waiting && (e.Readies? || e.Answers?)) && !r.gone
    requires e.Changes? || e.Moves? || e.Hands? || e.Toggles? || e.Swaps? || e.Unreadies? || e.Enters? || e.Readies?
          || e.Begins? || e.Answers? || e.Joins? || e.Returns? || e.Binds? || e.Places? || e.Reports? || e.Finishes?
    ensures Step(h, r, e, w).probe == r.probe || Step(h, r, e, w).probe == None
  {
    if e.Joins? || e.Returns? || e.Binds? || e.Places? || e.Reports? || e.Finishes? || e.Enters? {
      ArrivalProbe(h, r, e, w);
    } else {
      WaitingProbe(h, r, e, w);
    }
    hide *;
  }

  lemma ArrivalProbe(h: Policy, r: Room, e: Event, w: World)
    requires !r.gone && (e.Joins? || e.Returns? || e.Binds? || e.Places? || e.Reports? || e.Finishes? || e.Enters?)
    ensures Step(h, r, e, w).probe == r.probe
  {
    hide Unready, InstallAllowed, RestoreAllowed, Reporters, PositionKey, FightersOf, Leased, SeatFor;
  }

  lemma WaitingProbe(h: Policy, r: Room, e: Event, w: World)
    requires !(r.stage == Waiting && (e.Readies? || e.Answers?)) && !r.gone
    requires e.Changes? || e.Moves? || e.Hands? || e.Toggles? || e.Swaps? || e.Unreadies? || e.Readies?
          || e.Begins? || e.Answers?
    ensures Step(h, r, e, w).probe == r.probe || Step(h, r, e, w).probe == None
  {
    if e.Swaps? {
      SwapProbe(r, e.uid, e.step, e.swap, w);
      hide ExchangeSeat;
    } else if e.Begins? || e.Answers? || e.Readies? {
      hide WithPhase, IdentityOf, ProbeBroken, Unready, FightersOf, Leased;
    } else {
      hide Heir, Unready, ToggledSeat, ToggleRefused, PositionKey, Admitted, FightersOf, Leased;
    }
  }

  lemma SwapProbe(r: Room, uid: Uid, step: SwapStep, s: Swap, w: World)
    ensures ExchangeSeat(r, uid, step, s, w).probe == r.probe
  {
    hide Unready, IdentityOf, SwapSound, SwapOpen, FightersOf;
  }

  lemma {:induction false} RunProbeReady(h: Policy, start: Room, events: seq<Moment>)
    requires Opened(h, start)
    ensures ProbeReady(Run(h, start, events))
  {
    if events == [] {
      OpenedRuns(h, start);
      OpenedProbe(h, start);
    } else {
      var n := |events| - 1;
      var r, e, w := Run(h, start, events[..n]), events[n].event, events[n].world;
      RunProbeReady(h, start, events[..n]);
      RunRunning(h, start, events[..n]);
      RunSeated(h, start, events[..n]);
      hide Step, Running, Seated, Modal, ProbeReady, Opened;
      if r.gone {
        GoneStays(h, r, e, w);
      } else {
        StepProbe(h, r, e, w);
      }
    }
  }

  lemma OpenedProbe(h: Policy, r: Room)
    requires Opened(h, r)
    ensures r.probe == None
  {
    var uid, s, connection, w :| uid != 0 && connection != 0 && Admitted(s) && r == Create(h, uid, s, connection, w);
    CreateFields(h, uid, s, connection, w);
  }

  /**
   * Informed start: outside the tutorial a match starts only when every fighter is ready and gave that consent
   * after the latest change of roster, role, team, seat, owner or settings; and nobody is then suspended.
   */
  lemma StartIsInformed(h: Policy, start: Room, events: seq<Moment>, e: Event, w: World)
    requires Opened(h, start)
    requires var r := Run(h, start, events);
      !r.gone && r.stage == Waiting && r.settings.mode != TUTORIAL && !Step(h, r, e, w).gone
      && Step(h, r, e, w).stage != Waiting
    ensures var r := Run(h, start, events); var x := Step(h, r, e, w);
      && FightersReady(x) && (forall u <- r.members :: u !in r.suspended)
      && forall u <- x.members :: !x.members[u].spectator ==> GivenSince(h, start, events + [Moment(e, w)], u)
  {
    var r := Run(h, start, events);
    var x := Step(h, r, e, w);
    var more := events + [Moment(e, w)];
    assert more[..|more| - 1] == events && Run(h, start, more) == x;
    RunRunning(h, start, events);
    RunProbeReady(h, start, events);
    ReadyMeansConsent(h, start, events);
    StartsBy(h, r, e, w);
    StartFacts(h, r, e, w);
    hide Step, Run, Running, Modal, Opened, ProbeReady;
    SourcedGiven(h, start, more);
    hide GivenSince;
  }

  lemma StartFacts(h: Policy, r: Room, e: Event, w: World)
    requires Running(r) && !r.gone && r.stage == Waiting && ProbeReady(r) && (e.Readies? || e.Answers?)
    requires Step(h, r, e, w).stage != Waiting
    ensures var x := Step(h, r, e, w);
      FightersReady(x) && Sourced(x, r, e) && forall u <- r.members :: u !in r.suspended
  {
    if e.Readies? {
      ReadyEffects(h, r, e.uid, w, e.plan);
      hide Ready, Running, IdentityOf, ProbeReady, FightersReady;
    } else {
      AnswerEffects(h, r, e.uid, w, e.plan);
      hide DelayReply, Running;
      var x := Step(h, r, e, w);
      IdentityReady(x, r);
    }
  }

  lemma IdentityReady(x: Room, r: Room)
    requires r.probe.Some? && ProbeReady(r) && r.probe.value.identity == IdentityOf(r)
    requires SameLineup(x, r) && forall u <- x.members :: x.members[u].ready == r.members[u].ready
    ensures FightersReady(x)
  {
    forall u | u in x.members && !x.members[u].spectator
      ensures x.members[u].ready
    {
      assert u in r.members && u in IdentityOf(r).seats;
      assert IdentityOf(r).seats[u].ready == r.members[u].ready;
    }
  }

  // ---------------------------------------------------------------- the delay probe

  /** Event k was the ready of the room's owner that started this probe: its time, its identity, all fighters asked. */
  ghost predicate AskedAt(h: Policy, start: Room, events: seq<Moment>, k: nat, p: Probe) {
    && k < |events| && events[k].event.Readies?
    && var x := Run(h, start, events[..k + 1]);
       && events[k].event.uid == x.owner
       && x.probe == Some(Probe(events[k].world.now, IdentityOf(x), x.Fighters()))
       && p.start == events[k].world.now && p.identity == IdentityOf(x)
  }

  /** Event j was an answer this probe was waiting for: in time, and counted or the start itself. */
  ghost predicate AnswerCounts(h: Policy, start: Room, events: seq<Moment>, j: nat, u: Uid, p: Probe)
    requires j < |events|
  {
    && events[j].event.Answers? && events[j].event.uid == u && events[j].world.now - p.start < 10.0
    && var r, x := Run(h, start, events[..j]), Run(h, start, events[..j + 1]);
       && r.probe.Some? && r.probe.value.start == p.start && r.probe.value.identity == p.identity
       && u in r.probe.value.pending
       && (x.stage == Loading || x.probe == Some(r.probe.value.(pending := r.probe.value.pending - {u})))
  }

  ghost predicate AnsweredAfter(h: Policy, start: Room, events: seq<Moment>, k: nat, u: Uid, p: Probe) {
    exists j :: k < j < |events| && AnswerCounts(h, start, events, j, u, p)
  }

  /** Everybody asked by the probe is still pending or has answered in under ten seconds. */
  ghost predicate TracedFrom(h: Policy, start: Room, events: seq<Moment>, k: nat, p: Probe) {
    && AskedAt(h, start, events, k, p)
    && forall u <- Run(h, start, events[..k + 1]).Fighters() ::
         u in p.pending || AnsweredAfter(h, start, events, k, u, p)
  }

  ghost predicate Traced(h: Policy, start: Room, events: seq<Moment>) {
    Run(h, start, events).probe.Some? ==>
      exists k: nat :: TracedFrom(h, start, events, k, Run(h, start, events).probe.value)
  }

  lemma TraceExtends(h: Policy, start: Room, before: seq<Moment>, m: Moment, k: nat, p: Probe, q: Probe)
    requires TracedFrom(h, start, before, k, p) && q.start == p.start && q.identity == p.identity
    requires forall u <- p.pending :: u in q.pending || AnswerCounts(h, start, before + [m], |before|, u, p)
    ensures TracedFrom(h, start, before + [m], k, q)
  {
    var more := before + [m];
    assert more[..k + 1] == before[..k + 1] && more[k] == before[k];
    hide Run, IdentityOf;
    forall u | u in Run(h, start, more[..k + 1]).Fighters()
      ensures u in q.pending || AnsweredAfter(h, start, more, k, u, q)
    {
      if u in p.pending {
        if u !in q.pending {
          AnswerSame(h, start, more, |before|, u, p, q);
        }
      } else {
        var j :| k < j < |before| && AnswerCounts(h, start, before, j, u, p);
        AnswerStays(h, start, before, m, j, u, p);
        AnswerSame(h, start, more, j, u, p, q);
      }
    }
  }

  lemma AnswerSame(h: Policy, start: Room, events: seq<Moment>, j: nat, u: Uid, p: Probe, q: Probe)
    requires j < |events| && AnswerCounts(h, start, events, j, u, p) && q.start == p.start && q.identity == p.identity
    ensures AnswerCounts(h, start, events, j, u, q)
  {
    hide Run;
  }

  lemma AnswerStays(h: Policy, start: Room, before: seq<Moment>, m: Moment, j: nat, u: Uid, p: Probe)
    requires j < |before| && AnswerCounts(h, start, before, j, u, p)
    ensures AnswerCounts(h, start, before + [m], j, u, p)
  {
    hide Run;
    assert (before + [m])[..j] == before[..j] && (before + [m])[..j + 1] == before[..j + 1];
  }

  lemma AskedNow(h: Policy, start: Room, before: seq<Moment>, m: Moment, p: Probe)
    requires m.event.Readies? && m.event.uid == Run(h, start, before + [m]).owner
    requires Run(h, start, before + [m]).probe == Some(p)
    requires p == Probe(m.world.now, IdentityOf(Run(h, start, before + [m])), Run(h, start, before + [m]).Fighters())
    ensures TracedFrom(h, start, before + [m], |before|, p)
  {
    var more := before + [m];
    assert more[..|before| + 1] == more && more[|before|] == m;
  }

  lemma {:induction false} RunTraced(h: Policy, start: Room, events: seq<Moment>)
    requires Opened(h, start)
    ensures Traced(h, start, events)
  {
    if events == [] {
      OpenedProbe(h, start);
    } else {
      var n := |events| - 1;
      var before, m := events[..n], events[n];
      RunTraced(h, start, before);
      assert before + [m] == events;
      StepTraced(h, start, before, m);
    }
  }

  lemma StepTraced(h: Policy, start: Room, before: seq<Moment>, m: Moment)
    requires Traced(h, start, before)
    ensures Traced(h, start, before + [m])
  {
    var r, x := Run(h, start, before), Run(h, start, before + [m]);
    assert (before + [m])[..|before|] == before;
    assert x == Step(h, r, m.event, m.world);
    assert (before + [m])[..|before| + 1] == before + [m];
    ProbeSteps(h, r, m.event, m.world);
    hide Step, Run, TracedFrom, IdentityOf;
    if x.probe.Some? {
      if x.probe == r.probe {
        var k: nat :| TracedFrom(h, start, before, k, r.probe.value);
        TraceExtends(h, start, before, m, k, r.probe.value, x.probe.value);
      } else if r.probe.None? {
        AskedNow(h, start, before, m, x.probe.value);
        assert TracedFrom(h, start, before + [m], |before|, x.probe.value);
      } else {
        var k: nat :| TracedFrom(h, start, before, k, r.probe.value);
        TraceExtends(h, start, before, m, k, r.probe.value, x.probe.value);
      }
    }
  }

  /** The three ways a probe is present after a step: untouched, just begun, or with one answer less to wait for. */
  lemma ProbeSteps(h: Policy, r: Room, e: Event, w: World)
    ensures var x := Step(h, r, e, w);
      || x.probe == r.probe || x.probe.None?
      || (r.probe.None? && e.Readies? && e.uid == x.owner && x.probe == Some(Probe(w.now, IdentityOf(x), x.Fighters())))
      || (r.probe.Some? && e.Answers? && e.uid in r.probe.value.pending && w.now - r.probe.value.start < 10.0
          && x.probe == Some(r.probe.value.(pending := r.probe.value.pending - {e.uid})))
  {
    if r.gone {
      GoneStays(h, r, e, w);
    } else if r.stage == Waiting && e.Readies? {
      ReadyEffects(h, r, e.uid, w, e.plan);
      hide Ready, IdentityOf, FightersReady, SameLineup;
    } else if r.stage == Waiting && e.Answers? {
      AnswerEffects(h, r, e.uid, w, e.plan);
      hide DelayReply, IdentityOf, SameLineup;
    } else {
      ProbeUntouched(h, r, e, w);
      hide Step, IdentityOf;
    }
  }

  /**
   * Event k was the owner's request; nothing it captured has changed since, and all fighters of that moment have
   * answered the probe it began, in time.
   */
  ghost predicate MeasuredSince(h: Policy, start: Room, events: seq<Moment>, k: nat, last: Moment) {
    && k < |events| && events[k].event.Readies?
    && var x := Run(h, start, events[..k + 1]); var p := Probe(events[k].world.now, IdentityOf(x), x.Fighters());
       && events[k].event.uid == x.owner && x.probe == Some(p) && IdentityOf(Run(h, start, events)) == IdentityOf(x)
       && forall u <- x.Fighters() :: AnsweredAfter(h, start, events + [last], k, u, p)
  }

  /**
   * With the probe enabled a match starts only on the last answer to a probe: owner, settings, connections, seats
   * and ready flags are those captured when the host asked for the start, and every fighter of that moment answered
   * within ten seconds of it.
   */
  lemma StartIsMeasured(h: Policy, start: Room, events: seq<Moment>, e: Event, w: World)
    requires Opened(h, start) && h.probing
    requires var r := Run(h, start, events);
      !r.gone && r.stage == Waiting && r.settings.mode != TUTORIAL && !Step(h, r, e, w).gone
      && Step(h, r, e, w).stage != Waiting
    ensures e.Answers?
    ensures exists k: nat :: MeasuredSince(h, start, events, k, Moment(e, w))
  {
    var r := Run(h, start, events);
    RunRunning(h, start, events);
    StartsBy(h, r, e, w);
    RunTraced(h, start, events);
    MeasuredFacts(h, r, e, w);
    hide Step, Run, Running, Modal, Opened, IdentityOf, TracedFrom, MeasuredSince;
    var k: nat :| TracedFrom(h, start, events, k, r.probe.value);
    assert Run(h, start, events + [Moment(e, w)]) == Step(h, r, e, w) by {
      RunOfLast(h, start, events, Moment(e, w));
    }
    LastAnswerMeasures(h, start, events, Moment(e, w), k, r.probe.value);
  }

  lemma RunOfLast(h: Policy, start: Room, events: seq<Moment>, m: Moment)
    ensures Run(h, start, events + [m]) == Step(h, Run(h, start, events), m.event, m.world)
  {
    assert (events + [m])[..|events|] == events;
  }

  lemma LastAnswerMeasures(h: Policy, start: Room, events: seq<Moment>, m: Moment, k: nat, p: Probe)
    requires TracedFrom(h, start, events, k, p) && p.identity == IdentityOf(Run(h, start, events))
    requires m.event.Answers? && p.pending == {m.event.uid} && m.world.now - p.start < 10.0
    requires Run(h, start, events).probe == Some(p) && Run(h, start, events + [m]).stage == Loading
    ensures MeasuredSince(h, start, events, k, m)
  {
    hide Run, IdentityOf;
    var more := events + [m];
    assert more[..|events|] == events && more[..|events| + 1] == more && more[..k + 1] == events[..k + 1];
    assert AnswerCounts(h, start, more, |events|, m.event.uid, p);
    TraceExtends(h, start, events, m, k, p, p.(pending := {}));
    hide TracedFrom, AnswerCounts;
    TraceMeasures(h, start, more, k, p.(pending := {}));
  }

  /** A probe nobody is pending in was answered by everybody it asked. */
  lemma TraceMeasures(h: Policy, start: Room, events: seq<Moment>, k: nat, p: Probe)
    requires TracedFrom(h, start, events, k, p) && p.pending == {}
    ensures k < |events|
    ensures var x := Run(h, start, events[..k + 1]);
      var q := Probe(events[k].world.now, IdentityOf(x), x.Fighters());
      && events[k].event.Readies? && events[k].event.uid == x.owner && x.probe == Some(q)
      && p.identity == IdentityOf(x) && forall u <- x.Fighters() :: AnsweredAfter(h, start, events, k, u, q)
  {
    hide Run, IdentityOf, AnswerCounts;
    var x := Run(h, start, events[..k + 1]);
    var q := Probe(events[k].world.now, IdentityOf(x), x.Fighters());
    forall u | u in x.Fighters()
      ensures AnsweredAfter(h, start, events, k, u, q)
    {
      assert AnsweredAfter(h, start, events, k, u, p);
      var j :| k < j < |events| && AnswerCounts(h, start, events, j, u, p);
      AnswerSame(h, start, events, j, u, p, q);
    }
  }

  lemma MeasuredFacts(h: Policy, r: Room, e: Event, w: World)
    requires h.probing && !r.gone && r.stage == Waiting && (e.Readies? || e.Answers?)
    requires Step(h, r, e, w).stage != Waiting
    ensures e.Answers? && r.probe.Some? && r.probe.value.pending == {e.uid} && Step(h, r, e, w).stage == Loading
    ensures r.probe.value.identity == IdentityOf(r) && w.now - r.probe.value.start < 10.0
  {
    if e.Readies? {
      ReadyEffects(h, r, e.uid, w, e.plan);
      hide Ready, IdentityOf;
    } else {
      AnswerEffects(h, r, e.uid, w, e.plan);
      hide DelayReply, IdentityOf;
    }
  }
}
