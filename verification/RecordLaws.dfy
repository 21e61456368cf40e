/** Which records and which connections are accepted, said of bytes, counters and identities. */
module RecordLaws {
  import opened Bytes
  import opened ReplayWindow
  import opened RecordLayer
  import opened Admission

  // ---------------------------------------------------------------- headers

  /** The number held by four bytes, most significant first. */
  function Big(b: seq<Byte>, at: nat): nat
    requires at + 4 <= |b|
  {
    0x100_0000 * (b[at] as int) + 0x1_0000 * (b[at + 1] as int) + 0x100 * (b[at + 2] as int) + (b[at + 3] as int)
  }

  lemma BigIs(b: seq<Byte>, at: nat)
    requires at + 4 <= |b|
    ensures GetBe(b[at..at + 4]) == Big(b, at)
  {
    var x := b[at..at + 4];
    assert x[..3][..2] == x[..2] && x[..2][..1] == x[..1] && x[..1][..0] == [];
    assert GetBe(x) == 256 * GetBe(x[..3]) + x[3] && GetBe(x[..3]) == 256 * GetBe(x[..3][..2]) + x[2];
    assert GetBe(x[..2]) == 256 * GetBe(x[..2][..1]) + x[1] && GetBe(x[..1]) == 256 * GetBe(x[..1][..0]) + x[0];
  }

  lemma OneByte(b: seq<Byte>, at: nat)
    requires at + 1 <= |b|
    ensures GetBe(b[at..at + 1]) == b[at]
  {
    var x := b[at..at + 1];
    assert x[..0] == [];
  }

  lemma TwoBytes(b: seq<Byte>, at: nat)
    requires at + 2 <= |b|
    ensures GetBe(b[at..at + 2]) == 256 * (b[at] as int) + b[at + 1]
  {
    var x := b[at..at + 2];
    assert x[..1] == b[at..at + 1];
    OneByte(b, at);
  }

  lemma {:induction false} JoinBe(a: seq<Byte>, b: seq<Byte>)
    ensures GetBe(a + b) == GetBe(a) * Pow256(|b|) + GetBe(b)
  {
    if b == [] {
      assert a + b == a;
    } else {
      assert (a + b)[..|a + b| - 1] == a + b[..|b| - 1];
      JoinBe(a, b[..|b| - 1]);
      Shifted(GetBe(a), Pow256(|b| - 1));
      LastByte(a + b);
      LastByte(b);
      PowerStep(|b|);
      hide GetBe, Pow256;
    }
  }

  lemma LastByte(b: seq<Byte>)
    requires b != []
    ensures GetBe(b) == 256 * GetBe(b[..|b| - 1]) + b[|b| - 1]
  {
  }

  lemma PowerStep(k: nat)
    requires k > 0
    ensures Pow256(k) == 256 * Pow256(k - 1)
  {
  }

  lemma Shifted(n: nat, p: nat)
    ensures 256 * (n * p) == n * (256 * p)
  {
  }

  lemma EightBytes(b: seq<Byte>, at: nat)
    requires at + 8 <= |b|
    ensures GetBe(b[at..at + 8]) == Big(b, at) * 0x1_0000_0000 + Big(b, at + 4)
  {
    assert b[at..at + 8] == b[at..at + 4] + b[at + 4..at + 8];
    JoinBe(b[at..at + 4], b[at + 4..at + 8]);
    BigIs(b, at);
    BigIs(b, at + 4);
    Widths();
    hide GetBe, Big;
  }

  /** The bytes of a good header. */
  ghost predicate GoodHeader(b: seq<Byte>) {
    && |b| == 52 && b[0] == 0x4b && b[1] == 0x4b && b[2] == 0x45 && b[3] == 0x31
    && 1 <= b[4] <= 3 && b[5] <= 1 && b[6] == b[7] == 0
    && Big(b, 40) == 0 && 1 <= Big(b, 48) <= 32768
  }

  /** A header is read exactly when its bytes are good, and its fields are where the format puts them. */
  lemma InspectIff(b: seq<Byte>)
    ensures Inspect(b).Some? <==> GoodHeader(b)
    ensures GoodHeader(b) ==>
      Inspect(b).value == Head(b[4], b[5], b[8..24], b[24..40], Big(b, 44), Big(b, 48))
  {
    if |b| == 52 {
      OneByte(b, 4);
      OneByte(b, 5);
      TwoBytes(b, 6);
      EightBytes(b, 40);
      BigIs(b, 48);
      BigBounds(b, 44);
      MagicBytes(b);
      hide GetBe, Big;
    }
  }

  lemma BigBounds(b: seq<Byte>, at: nat)
    requires at + 4 <= |b|
    ensures Big(b, at) < 0x1_0000_0000
  {
  }

  lemma MagicBytes(b: seq<Byte>)
    requires |b| >= 4
    ensures b[..4] == RecordLayer.MAGIC <==> b[0] == 0x4b && b[1] == 0x4b && b[2] == 0x45 && b[3] == 0x31
  {
    if b[0] == 0x4b && b[1] == 0x4b && b[2] == 0x45 && b[3] == 0x31 {
      assert b[..4] == [0x4b, 0x4b, 0x45, 0x31];
    }
  }

  // ---------------------------------------------------------------- records

  /** The record is bound to this end: the peer's direction, this session and connection, and of the stated length. */
  ghost predicate BoundTo(r: Records, packet: seq<Byte>) {
    && |packet| >= 52 && GoodHeader(packet[..52]) && packet[4] == r.channel && packet[5] == 1 - r.tx
    && packet[8..24] == r.sid && packet[24..40] == r.cid && |packet| == 52 + Big(packet, 48) + 16
  }

  /** Its turn: the next one of a stream, or for a datagram one not seen and not 1024 or more behind the highest. */
  ghost predicate InTurn(r: Records, sequence: nat) {
    && (r.channel != 3 ==> sequence == r.next)
    && (r.channel == 3 ==> r.window.high - sequence < 1024
                           && (sequence <= r.window.high ==> !Bit(r.window.seen, r.window.high - sequence)))
  }

  /**
   * A record is opened exactly when it is bound to this end, in turn and authentic; then the state moves on by that
   * one record, and otherwise it does not move.
   */
  lemma OpenIff(a: Aead, r: Records, packet: seq<Byte>)
    requires Configured(r)
    ensures var (plain, x) := OpenRecord(a, r, packet);
      && (plain.Some? <==>
            && BoundTo(r, packet) && InTurn(r, Big(packet, 44))
            && a.decrypt(Key(r.master, r.channel, 1 - r.tx, r.sid, r.cid), Big(packet, 44), packet[52..],
                         packet[..52]).Some?)
      && (plain.Some? ==>
            && plain == a.decrypt(Key(r.master, r.channel, 1 - r.tx, r.sid, r.cid), Big(packet, 44), packet[52..],
                                  packet[..52])
            && (r.channel != 3 ==> x == r.(next := r.next + 1))
            && (r.channel == 3 ==> x == r.(window := Commit(r.window, Big(packet, 44)))))
      && (plain.None? ==> x == r)
  {
    var head := packet[..if |packet| < 52 then |packet| else 52];
    InspectIff(head);
    if |packet| >= 52 {
      HeadPart(packet);
    }
    hide Inspect, GoodHeader, Big, Bit, Commit;
  }

  lemma HeadPart(packet: seq<Byte>)
    requires |packet| >= 52
    ensures var b := packet[..52];
      && b[4] == packet[4] && b[5] == packet[5] && b[8..24] == packet[8..24] && b[24..40] == packet[24..40]
      && Big(b, 44) == Big(packet, 44) && Big(b, 48) == Big(packet, 48)
  {
  }

  // ---------------------------------------------------------------- admission

  /** The ids this grant has admitted so far. */
  ghost function Taken(g: Grant): set<Identity> {
    set i | 0 <= i < |g.attempts| && g.attempts[i].stage == Admitted :: g.attempts[i].identity
  }

  lemma TakenIs(events: seq<Event>)
    requires Admission.Run(events).live
    ensures Admission.Run(events).connections == Taken(Admission.Run(events))
  {
    Admission.RunInv(events);
    assert Taken(Admission.Run(events)) == AdmittedIds(Admission.Run(events).attempts);
  }

  /** In every reachable live grant an attempt starts exactly with a client's first header under an untaken identity. */
  lemma BeginsIff(events: seq<Event>, listener: nat, head: Head, valid: bool)
    requires Admission.Run(events).live
    ensures var g, x := Admission.Run(events), Admission.Step(Admission.Run(events), Begin(listener, head, valid));
      var ok := head.channel == listener && head.direction == 0 && head.sequence == 0 && head.cid != seq(16, _ => 0)
                && valid && Identity(listener, head.cid) !in Taken(g) && |Taken(g)| < 32;
      && (!ok ==> x == g)
      && (ok ==> x == g.(attempts := g.attempts + [Attempt(Identity(listener, head.cid), Waiting, 0)]))
  {
    TakenIs(events);
    assert ZERO_CID == seq(16, _ => 0);
    hide Admission.Run, Taken;
  }

  /** A waiting attempt is admitted exactly when its body is authentic and its identity is still untaken. */
  lemma FinishesIff(events: seq<Event>, i: nat, authentic: bool, valid: bool)
    requires Admission.Run(events).live && i < |Admission.Run(events).attempts|
    requires Admission.Run(events).attempts[i].stage == Waiting
    ensures var g, x := Admission.Run(events), Admission.Step(Admission.Run(events), Finish(i, authentic, valid));
      var id := g.attempts[i].identity;
      var ok := authentic && valid && id !in Taken(g) && |Taken(g)| < 32;
      && |x.attempts| == |g.attempts| && x.live
      && x.attempts == g.attempts[i := Attempt(id, if ok then Admitted else Refused, g.attempts[i].sent)]
      && x.connections == (if ok then g.connections + {id} else g.connections) && x.udp == g.udp && x.log == g.log
  {
    TakenIs(events);
    hide Admission.Run, Taken;
  }

  /** A record goes out under the connection's own counter, up to the bound of its key. */
  lemma SendsIff(g: Grant, i: nat)
    ensures var x := Admission.Step(g, Send(i));
      var ok := i < |g.attempts| && g.attempts[i].stage == Admitted && g.attempts[i].sent < 0x1_0000_0000;
      && (!ok ==> x == g)
      && (ok ==>
            var a := g.attempts[i];
            && x == g.(attempts := g.attempts[i := Attempt(a.identity, Admitted, a.sent + 1)],
                       log := g.log + [Sealed(a.identity.channel, 1, a.identity.cid, a.sent)]))
  {
  }

  /** The datagram records begin with the first client datagram, once, and number what is sent from nought. */
  lemma DatagramsIff(g: Grant, head: Head, valid: bool)
    ensures Admission.Step(g, Datagram(head, valid))
         == if head.channel == 3 && head.direction == 0 && head.cid == seq(16, _ => 0) && g.live && valid && g.udp.None?
            then g.(udp := Some(0)) else g
    ensures var x := Admission.Step(g, SendUdp(valid));
      var ok := g.live && valid && g.udp.Some? && g.udp.value < 0x1_0000_0000;
      && (!ok ==> x == g)
      && (ok ==> x == g.(udp := Some(g.udp.value + 1),
                         log := g.log + [Sealed(3, 1, seq(16, _ => 0), g.udp.value)]))
    ensures Admission.Step(g, Release) == g.(live := false, connections := {}, udp := None)
  {
    assert ZERO_CID == seq(16, _ => 0);
  }
}
