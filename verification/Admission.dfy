/**
 Connection admission of one grant. NativeProtection.accept is split at its awaits: Begin is everything up to the wait
 for the record body, Finish everything after it, and any number of attempts may be between the two.
 */
module Admission {
  import opened RecordLayer
  import opened Bytes

  const MAX_CONNECTIONS: nat := 32

  datatype Identity = Identity(channel: nat, cid: seq<Byte>)

  datatype Stage = Waiting | Admitted | Refused

  /** One accept call; sent counts the records its server-side Records object has sealed. */
  datatype Attempt = Attempt(identity: Identity, stage: Stage, sent: nat)

  /** What identifies the key and nonce of a record sealed under this grant. */
  datatype Sealed = Sealed(channel: nat, direction: nat, cid: seq<Byte>, sequence: nat)

  datatype Grant = Grant(
    live: bool, connections: set<Identity>, attempts: seq<Attempt>, udp: Option<nat>, log: seq<Sealed>)

  const ISSUED: Grant := Grant(true, {}, [], None, [])

  const ZERO_CID: seq<Byte> := Zeros(16)

  /** `valid` is the verdict of NativeAdmission.validate on a grant that has not been released. */
  datatype Event =
    | Begin(listener: nat, head: Head, valid: bool)
    | Finish(attempt: nat, authentic: bool, valid: bool)
    | Send(attempt: nat)
    | Datagram(head: Head, valid: bool)
    | SendUdp(valid: bool)
    | Release

  predicate OpensConnection(listener: nat, head: Head) {
    head.channel == listener && head.direction == 0 && head.sequence == 0 && head.cid != ZERO_CID
  }

  predicate HasRoom(g: Grant, id: Identity) {
    id !in g.connections && |g.connections| < MAX_CONNECTIONS
  }

  function Step(g: Grant, e: Event): Grant {
    match e
    case Begin(listener, head, valid) =>
      var id := Identity(listener, head.cid);
      if OpensConnection(listener, head) && g.live && valid && HasRoom(g, id)
      then g.(attempts := g.attempts + [Attempt(id, Waiting, 0)]) else g
    case Finish(i, authentic, valid) =>
      if i >= |g.attempts| || g.attempts[i].stage != Waiting then g
      else
        var id := g.attempts[i].identity;
        if authentic && g.live && valid && HasRoom(g, id)
        then g.(connections := g.connections + {id}, attempts := g.attempts[i := g.attempts[i].(stage := Admitted)])
        else g.(attempts := g.attempts[i := g.attempts[i].(stage := Refused)])
    case Send(i) =>
      if i >= |g.attempts| || g.attempts[i].stage != Admitted || g.attempts[i].sent >= LIMIT then g
      else
        var a := g.attempts[i];
        g.(attempts := g.attempts[i := a.(sent := a.sent + 1)],
           log := g.log + [Sealed(a.identity.channel, 1, a.identity.cid, a.sent)])
    case Datagram(head, valid) =>
      if head.channel == UDP && head.direction == 0 && head.cid == ZERO_CID && g.live && valid && g.udp.None?
      then g.(udp := Some(0)) else g
    case SendUdp(valid) =>
      if g.live && valid && g.udp.Some? && g.udp.value < LIMIT
      then g.(udp := Some(g.udp.value + 1), log := g.log + [Sealed(UDP, 1, ZERO_CID, g.udp.value)]) else g
    case Release => g.(live := false, connections := {}, udp := None)
  }

  function Run(events: seq<Event>): Grant {
    if events == [] then ISSUED else Step(Run(events[..|events| - 1]), events[|events| - 1])
  }

  class NativeGrant {
    var live: bool
    var connections: set<Identity>
    var attempts: seq<Attempt>
    var udp: Option<nat>
    ghost var log: seq<Sealed>

    ghost function View(): Grant
      reads this
    {
      Grant(live, connections, attempts, udp, log)
    }

    constructor ()
      ensures View() == ISSUED
    {
      live, connections, attempts, udp, log := true, {}, [], None, [];
    }

    /** accept, up to the wait for the record body. */
    method AcceptHeader(listener: nat, head: Head, valid: bool) returns (attempt: Option<nat>)
      modifies this
      ensures View() == Step(old(View()), Begin(listener, head, valid))
      ensures attempt == if |attempts| > old(|attempts|) then Some(old(|attempts|)) else None
    {
      if head.channel != listener || head.direction != 0 || head.sequence != 0 || head.cid == ZERO_CID {
        return None;
      }
      if !live || !valid {
        return None;
      }
      var identity := Identity(listener, head.cid);
      if identity in connections || |connections| >= MAX_CONNECTIONS {
        return None;
      }
      attempt := Some(|attempts|);
      attempts := attempts + [Attempt(identity, Waiting, 0)];
    }

    /** accept, after the body has arrived: the recheck and the reservation run without an await between them. */
    method AcceptBody(i: nat, authentic: bool, valid: bool) returns (admitted: bool)
      requires i < |attempts| && attempts[i].stage == Waiting
      modifies this
      ensures View() == Step(old(View()), Finish(i, authentic, valid))
      ensures admitted <==> attempts[i].stage == Admitted
    {
      var identity := attempts[i].identity;
      if !authentic || !live || !valid || identity in connections || |connections| >= MAX_CONNECTIONS {
        attempts := attempts[i := attempts[i].(stage := Refused)];
        return false;
      }
      connections := connections + {identity};
      attempts := attempts[i := attempts[i].(stage := Admitted)];
      return true;
    }

    /** Sealing one record on an admitted connection; false where Records.seal raises its send limit. */
    method SealOn(i: nat) returns (ok: bool)
      requires i < |attempts| && attempts[i].stage == Admitted
      modifies this
      ensures View() == Step(old(View()), Send(i))
      ensures ok <==> old(attempts[i].sent) < LIMIT
    {
      var a := attempts[i];
      if a.sent >= LIMIT {
        return false;
      }
      attempts := attempts[i := a.(sent := a.sent + 1)];
      log := log + [Sealed(a.identity.channel, 1, a.identity.cid, a.sent)];
      return true;
    }

    /** datagram: the UDP Records object is created once, on first use. */
    method OpenDatagram(head: Head, valid: bool)
      modifies this
      ensures View() == Step(old(View()), Datagram(head, valid))
    {
      if head.channel != UDP || head.direction != 0 || head.cid != ZERO_CID {
        return;
      }
      if live && valid && udp == None {
        udp := Some(0);
      }
    }

    method SealDatagram(valid: bool) returns (ok: bool)
      modifies this
      ensures View() == Step(old(View()), SendUdp(valid))
      ensures ok <==> |log| > |old(log)|
    {
      if udp == None || !live || !valid || udp.value >= LIMIT {
        return false;
      }
      log := log + [Sealed(UDP, 1, ZERO_CID, udp.value)];
      udp := Some(udp.value + 1);
      return true;
    }

    method ReleaseGrant()
      modifies this
      ensures View() == Step(old(View()), Release)
    {
      live, udp, connections := false, None, {};
    }
  }

  // ---------------------------------------------------------------- every run

  function AdmittedIds(attempts: seq<Attempt>): set<Identity> {
    set i | 0 <= i < |attempts| && attempts[i].stage == Admitted :: attempts[i].identity
  }

  /** Where a logged record came from: an admitted attempt's counter, or the one UDP counter. */
  ghost predicate Accounted(g: Grant, s: Sealed) {
    && s.direction == 1
    && if s.cid == ZERO_CID
        then s.channel == UDP && (g.udp.Some? ==> s.sequence < g.udp.value) && (g.live ==> g.udp.Some?)
       else exists i :: 0 <= i < |g.attempts| && g.attempts[i].stage == Admitted
                        && g.attempts[i].identity == Identity(s.channel, s.cid) && s.sequence < g.attempts[i].sent
  }

  ghost predicate Inv(g: Grant) {
    && (forall i | 0 <= i < |g.attempts| :: g.attempts[i].identity.cid != ZERO_CID)
    && (forall i, j | 0 <= i < j < |g.attempts| && g.attempts[i].stage == Admitted && g.attempts[j].stage == Admitted ::
          g.attempts[i].identity != g.attempts[j].identity)
    && (g.live ==> g.connections == AdmittedIds(g.attempts))
    && (!g.live ==> g.udp.None?)
    && |AdmittedIds(g.attempts)| <= MAX_CONNECTIONS
    && (forall k | 0 <= k < |g.log| :: Accounted(g, g.log[k]))
    && (forall k, l | 0 <= k < l < |g.log| :: g.log[k] != g.log[l])
  }

  /** An attempt that changes neither its identity nor whether it is admitted leaves the accounting alone. */
  lemma KeepsAdmitted(old_: seq<Attempt>, new_: seq<Attempt>)
    requires |old_| <= |new_|
    requires forall i | 0 <= i < |old_| ::
               new_[i].identity == old_[i].identity && (new_[i].stage == Admitted <==> old_[i].stage == Admitted)
    requires forall i | |old_| <= i < |new_| :: new_[i].stage != Admitted
    ensures AdmittedIds(new_) == AdmittedIds(old_)
  {
    forall id | id in AdmittedIds(old_)
      ensures id in AdmittedIds(new_)
    {
      var i :| 0 <= i < |old_| && old_[i].stage == Admitted && old_[i].identity == id;
      assert new_[i].stage == Admitted;
    }
  }

  /** Growing counters keep every logged record accounted for. */
  lemma KeepsAccounted(g: Grant, h: Grant, s: Sealed)
    requires Accounted(g, s)
    requires |g.attempts| <= |h.attempts|
    requires forall i | 0 <= i < |g.attempts| && g.attempts[i].stage == Admitted ::
               && h.attempts[i].stage == Admitted && h.attempts[i].identity == g.attempts[i].identity
               && h.attempts[i].sent >= g.attempts[i].sent
    requires h.udp.Some? ==> (g.udp.Some? && g.udp.value <= h.udp.value)
    requires h.live ==> g.live && h.udp.Some? == g.udp.Some?
    ensures Accounted(h, s)
  {
    if s.cid != ZERO_CID {
      var i :| 0 <= i < |g.attempts| && g.attempts[i].stage == Admitted
               && g.attempts[i].identity == Identity(s.channel, s.cid) && s.sequence < g.attempts[i].sent;
      assert h.attempts[i].identity == Identity(s.channel, s.cid) && s.sequence < h.attempts[i].sent;
    }
  }

  lemma AdmitIds(attempts: seq<Attempt>, i: nat)
    requires i < |attempts|
    requires attempts[i].stage != Admitted
    ensures AdmittedIds(attempts[i := attempts[i].(stage := Admitted)])
         == AdmittedIds(attempts) + {attempts[i].identity}
  {
    var after := attempts[i := attempts[i].(stage := Admitted)];
    assert after[i].stage == Admitted && after[i].identity == attempts[i].identity;
    forall x | x in AdmittedIds(attempts)
      ensures x in AdmittedIds(after)
    {
      var j :| 0 <= j < |attempts| && attempts[j].stage == Admitted && attempts[j].identity == x;
      assert after[j] == attempts[j];
    }
  }

  lemma AdmitKeepsInv(g: Grant, i: nat)
    requires Inv(g) && g.live && i < |g.attempts| && g.attempts[i].stage == Waiting
    requires HasRoom(g, g.attempts[i].identity)
    ensures Inv(Step(g, Finish(i, true, true)))
  {
    var h := Step(g, Finish(i, true, true));
    var id := g.attempts[i].identity;
    AdmitIds(g.attempts, i);
    forall k | 0 <= k < |h.log| ensures Accounted(h, h.log[k]) {
      KeepsAccounted(g, h, g.log[k]);
    }
  }

  lemma SendKeepsInv(g: Grant, i: nat)
    requires Inv(g) && i < |g.attempts| && g.attempts[i].stage == Admitted && g.attempts[i].sent < LIMIT
    ensures Inv(Step(g, Send(i)))
  {
    var h := Step(g, Send(i));
    KeepsAdmitted(g.attempts, h.attempts);
    var a := g.attempts[i];
    var s := Sealed(a.identity.channel, 1, a.identity.cid, a.sent);
    forall k | 0 <= k < |g.log|
      ensures g.log[k] != s && Accounted(h, g.log[k])
    {
      KeepsAccounted(g, h, g.log[k]);
    }
    assert h.attempts[i].identity == Identity(s.channel, s.cid) && s.sequence < h.attempts[i].sent;
    assert Accounted(h, s);
  }

  lemma StepKeepsInv(g: Grant, e: Event)
    requires Inv(g)
    ensures Inv(Step(g, e))
  {
    var h := Step(g, e);
    if e.Send? && h != g {
      SendKeepsInv(g, e.attempt);
    } else if e.Finish? && h.connections != g.connections {
      AdmitKeepsInv(g, e.attempt);
    } else if e.Datagram? || e.SendUdp? {
      UdpKeepsInv(g, e);
    } else {
      OthersKeepInv(g, e);
    }
  }

  lemma UdpKeepsInv(g: Grant, e: Event)
    requires Inv(g) && (e.Datagram? || e.SendUdp?)
    ensures Inv(Step(g, e))
  {
    var h := Step(g, e);
    forall k | 0 <= k < |g.log| ensures Accounted(h, g.log[k]) {
      assert Accounted(g, g.log[k]);
      if g.log[k].cid != ZERO_CID {
        assert h.attempts == g.attempts;
      }
    }
  }

  lemma OthersKeepInv(g: Grant, e: Event)
    requires Inv(g) && (e.Begin? || e.Finish? || e.Send? || e.Release?)
    requires (e.Send? ==> Step(g, e) == g) && (e.Finish? ==> Step(g, e).connections == g.connections)
    ensures Inv(Step(g, e))
  {
    var h := Step(g, e);
    KeepsAdmitted(g.attempts, h.attempts);
    forall k | 0 <= k < |g.log| ensures Accounted(h, g.log[k]) {
      KeepsAccounted(g, h, g.log[k]);
    }
  }

  lemma {:induction false} RunInv(events: seq<Event>)
    ensures Inv(Run(events))
  {
    if events == [] {
      assert AdmittedIds([]) == {};
    } else {
      RunInv(events[..|events| - 1]);
      StepKeepsInv(Run(events[..|events| - 1]), events[|events| - 1]);
    }
  }

  /** However accept calls interleave, no two of them are admitted for the same channel and connection nonce. */
  lemma OneAdmissionPerIdentity(events: seq<Event>, i: nat, j: nat)
    requires i < j < |Run(events).attempts|
    requires Run(events).attempts[i].stage == Admitted && Run(events).attempts[j].stage == Admitted
    ensures Run(events).attempts[i].identity != Run(events).attempts[j].identity
  {
    RunInv(events);
  }

  function CountAdmitted(attempts: seq<Attempt>): nat {
    if attempts == [] then 0
    else CountAdmitted(attempts[..|attempts| - 1]) + if attempts[|attempts| - 1].stage == Admitted then 1 else 0
  }

  /** Distinct identities: as many admitted attempts as reserved identities. */
  lemma {:induction false} CountIsIdentities(attempts: seq<Attempt>)
    requires forall i, j | 0 <= i < j < |attempts| && attempts[i].stage == Admitted && attempts[j].stage == Admitted ::
               attempts[i].identity != attempts[j].identity
    ensures CountAdmitted(attempts) == |AdmittedIds(attempts)|
  {
    if attempts == [] {
      assert AdmittedIds(attempts) == {};
    } else {
      var n := |attempts| - 1;
      var front, last := attempts[..n], attempts[n];
      CountIsIdentities(front);
      LastIdentity(attempts);
      assert last.stage == Admitted ==> last.identity !in AdmittedIds(front);
      hide AdmittedIds;
    }
  }

  lemma LastIdentity(attempts: seq<Attempt>)
    requires attempts != []
    ensures var n := |attempts| - 1;
      AdmittedIds(attempts) == AdmittedIds(attempts[..n])
                               + if attempts[n].stage == Admitted then {attempts[n].identity} else {}
  {
    var n := |attempts| - 1;
    var front := attempts[..n];
    forall id | id in AdmittedIds(front)
      ensures id in AdmittedIds(attempts)
    {
      var i :| 0 <= i < n && front[i].stage == Admitted && front[i].identity == id;
      assert attempts[i] == front[i];
    }
    forall id | id in AdmittedIds(attempts)
      ensures id in AdmittedIds(front) || (attempts[n].stage == Admitted && id == attempts[n].identity)
    {
      var i :| 0 <= i < |attempts| && attempts[i].stage == Admitted && attempts[i].identity == id;
      if i < n {
        assert front[i] == attempts[i];
      }
    }
  }

  /** At most 32 attempts of a grant are ever admitted, before or after its release. */
  lemma AdmissionsBounded(events: seq<Event>)
    ensures CountAdmitted(Run(events).attempts) <= MAX_CONNECTIONS
  {
    RunInv(events);
    CountIsIdentities(Run(events).attempts);
  }

  /** No two records the server seals under one grant share channel, direction, connection nonce and sequence. */
  lemma NoncesUnique(events: seq<Event>, k: nat, l: nat)
    requires k < l < |Run(events).log|
    ensures Run(events).log[k] != Run(events).log[l]
  {
    RunInv(events);
  }

  /** After a release nothing more is admitted, although the set of reserved identities has been emptied. */
  lemma ReleasedAdmitsNothing(g: Grant, e: Event)
    requires !g.live
    ensures !Step(g, e).live && AdmittedIds(Step(g, e).attempts) == AdmittedIds(g.attempts)
  {
    KeepsAdmitted(g.attempts, Step(g, e).attempts);
  }
}
