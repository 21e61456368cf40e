/**
 The 1024-wide replay window of the UDP record channel: a highest accepted sequence and an integer of seen bits
 (the rule of section 3.4.3 of RFC 4303), refined against the set of accepted sequences.
 */
module ReplayWindow {

  const WIDTH: nat := 1024

  // ---------------------------------------------------------------- bits of an unbounded integer

  function Bit(x: nat, i: nat): bool {
    if i == 0 then x % 2 == 1 else Bit(x / 2, i - 1)
  }

  /** x << k */
  function ShiftLeft(x: nat, k: nat): nat {
    if k == 0 then x else 2 * ShiftLeft(x, k - 1)
  }

  /** x & ((1 << w) - 1) */
  function Low(x: nat, w: nat): nat {
    if w == 0 then 0 else x % 2 + 2 * Low(x / 2, w - 1)
  }

  /** x | (1 << k) */
  function SetBit(x: nat, k: nat): nat {
    if k == 0 then x / 2 * 2 + 1 else x % 2 + 2 * SetBit(x / 2, k - 1)
  }

  lemma {:induction false} BitShiftLeft(x: nat, k: nat, i: nat)
    ensures Bit(ShiftLeft(x, k), i) <==> i >= k && Bit(x, i - k)
  {
    if k > 0 {
      assert ShiftLeft(x, k) / 2 == ShiftLeft(x, k - 1);
      if i > 0 {
        BitShiftLeft(x, k - 1, i - 1);
      }
    }
  }

  lemma {:induction false} BitLow(x: nat, w: nat, i: nat)
    ensures Bit(Low(x, w), i) <==> i < w && Bit(x, i)
  {
    if w == 0 {
      BitZero(i);
    } else {
      assert Low(x, w) / 2 == Low(x / 2, w - 1);
      if i > 0 {
        BitLow(x / 2, w - 1, i - 1);
      }
    }
  }

  lemma {:induction false} BitZero(i: nat)
    ensures !Bit(0, i)
  {
    if i > 0 {
      BitZero(i - 1);
    }
  }

  lemma {:induction false} BitSetBit(x: nat, k: nat, i: nat)
    ensures Bit(SetBit(x, k), i) <==> i == k || Bit(x, i)
  {
    if k == 0 {
      assert SetBit(x, 0) / 2 == x / 2;
    } else {
      assert SetBit(x, k) / 2 == SetBit(x / 2, k - 1);
      if i > 0 {
        BitSetBit(x / 2, k - 1, i - 1);
      }
    }
  }

  // ---------------------------------------------------------------- the window

  datatype Window = Window(high: int, seen: nat)

  const EMPTY: Window := Window(-1, 0)

  predicate Fresh(w: Window, s: nat) {
    var age := w.high - s;
    !(age >= WIDTH || (age >= 0 && Bit(w.seen, age)))
  }

  function Min(a: int, b: int): int {
    if a < b then a else b
  }

  /** The commit after successful authentication. */
  function Commit(w: Window, s: nat): Window {
    var moved := if s > w.high then Window(s, Low(ShiftLeft(w.seen, Min(s - w.high, WIDTH)), WIDTH)) else w;
    if moved.high - s < 0 then moved else moved.(seen := SetBit(moved.seen, moved.high - s))
  }

  /** The window remembers exactly the accepted sequences of the last WIDTH values up to the highest one. */
  ghost predicate Refines(w: Window, accepted: set<nat>) {
    && -1 <= w.high
    && (w.high >= 0 ==> w.high as nat in accepted)
    && (forall s | s in accepted :: s <= w.high)
    && (forall i: nat | i < WIDTH :: Bit(w.seen, i) <==> w.high - i >= 0 && (w.high - i) as nat in accepted)
  }

  lemma EmptyRefines()
    ensures Refines(EMPTY, {})
  {
    forall i: nat ensures !Bit(0, i) {
      BitZero(i);
    }
  }

  /** The bit test decides membership: never accepted before, and not older than the window. */
  lemma FreshIffNew(w: Window, accepted: set<nat>, s: nat)
    requires Refines(w, accepted)
    ensures Fresh(w, s) <==> s !in accepted && s > w.high - WIDTH
  {
    var age := w.high - s;
    if 0 <= age < WIDTH {
      assert Bit(w.seen, age) <==> w.high - age >= 0 && (w.high - age) as nat in accepted;
    }
  }

  lemma CommitBits(w: Window, s: nat, i: nat)
    requires -1 <= w.high && i < WIDTH && (s > w.high || w.high - s < WIDTH)
    ensures var v := Commit(w, s);
      var back := v.high - w.high;
      Bit(v.seen, i) <==> v.high - i == s || (i >= back && Bit(w.seen, i - back))
  {
    if s > w.high {
      var k := Min(s - w.high, WIDTH);
      BitShiftLeft(w.seen, k, i);
      BitLow(ShiftLeft(w.seen, k), WIDTH, i);
      BitSetBit(Low(ShiftLeft(w.seen, k), WIDTH), 0, i);
    } else {
      BitSetBit(w.seen, w.high - s, i);
    }
  }

  /** However far a sequence jumps ahead, committing it keeps the window an exact picture of the accepted set. */
  lemma CommitRefines(w: Window, accepted: set<nat>, s: nat)
    requires Refines(w, accepted) && Fresh(w, s)
    ensures Refines(Commit(w, s), accepted + {s})
  {
    FreshIffNew(w, accepted, s);
    var v := Commit(w, s);
    var back := v.high - w.high;
    forall i: nat | i < WIDTH
      ensures Bit(v.seen, i) <==> v.high - i >= 0 && (v.high - i) as nat in accepted + {s}
    {
      CommitBits(w, s, i);
      if i >= back {
        assert Bit(w.seen, i - back) <==> w.high - (i - back) >= 0 && (w.high - (i - back)) as nat in accepted;
      }
    }
  }

  // ---------------------------------------------------------------- whole runs

  /** A record reaching the window, and whether its authentication tag holds. */
  datatype Arrival = Arrival(sequence: nat, authentic: bool)

  function Step(w: Window, a: Arrival): Window {
    if Fresh(w, a.sequence) && a.authentic then Commit(w, a.sequence) else w
  }

  function After(arrivals: seq<Arrival>): Window {
    if arrivals == [] then EMPTY else Step(After(arrivals[..|arrivals| - 1]), arrivals[|arrivals| - 1])
  }

  predicate AcceptedAt(arrivals: seq<Arrival>, i: nat)
    requires i < |arrivals|
  {
    Fresh(After(arrivals[..i]), arrivals[i].sequence) && arrivals[i].authentic
  }

  function AcceptedSet(arrivals: seq<Arrival>): (accepted: set<nat>) {
    if arrivals == [] then {} else
      var n := |arrivals| - 1;
      AcceptedSet(arrivals[..n]) + (if AcceptedAt(arrivals, n) then {arrivals[n].sequence} else {})
  }

  lemma {:induction false} RunRefines(arrivals: seq<Arrival>)
    ensures Refines(After(arrivals), AcceptedSet(arrivals))
  {
    if arrivals == [] {
      EmptyRefines();
    } else {
      var n := |arrivals| - 1;
      RunRefines(arrivals[..n]);
      if AcceptedAt(arrivals, n) {
        CommitRefines(After(arrivals[..n]), AcceptedSet(arrivals[..n]), arrivals[n].sequence);
      } else {
        assert AcceptedSet(arrivals) == AcceptedSet(arrivals[..n]);
      }
    }
  }

  lemma {:induction false} AcceptedSetHolds(arrivals: seq<Arrival>, i: nat)
    requires i < |arrivals| && AcceptedAt(arrivals, i)
    ensures arrivals[i].sequence in AcceptedSet(arrivals)
  {
    var n := |arrivals| - 1;
    if i < n {
      assert arrivals[..n][..i] == arrivals[..i];
      AcceptedSetHolds(arrivals[..n], i);
    }
  }

  lemma {:induction false} AcceptedSetOnly(arrivals: seq<Arrival>, s: nat)
    requires s in AcceptedSet(arrivals)
    ensures exists i: nat :: i < |arrivals| && AcceptedAt(arrivals, i) && arrivals[i].sequence == s
  {
    var n := |arrivals| - 1;
    if AcceptedAt(arrivals, n) && s == arrivals[n].sequence {
    } else {
      AcceptedSetOnly(arrivals[..n], s);
      var i: nat :| i < n && AcceptedAt(arrivals[..n], i) && arrivals[..n][i].sequence == s;
      assert arrivals[..n][..i] == arrivals[..i];
      assert AcceptedAt(arrivals, i);
    }
  }

  /**
   For any arrival order and any jump size: an authentic record is accepted exactly when its sequence was not
   accepted before and is within WIDTH of the highest sequence accepted before it.
   */
  lemma WindowIsExact(arrivals: seq<Arrival>, i: nat)
    requires i < |arrivals|
    ensures AcceptedAt(arrivals, i) <==>
            && arrivals[i].authentic
            && (forall j: nat | j < i && AcceptedAt(arrivals, j) ::
                  arrivals[j].sequence != arrivals[i].sequence && arrivals[j].sequence < arrivals[i].sequence + WIDTH)
  {
    var before := arrivals[..i];
    RunRefines(before);
    FreshIffNew(After(before), AcceptedSet(before), arrivals[i].sequence);
    forall j: nat | j < i && AcceptedAt(arrivals, j)
      ensures arrivals[j].sequence in AcceptedSet(before)
    {
      assert before[..j] == arrivals[..j];
      AcceptedSetHolds(before, j);
    }
    forall s: nat | s in AcceptedSet(before)
      ensures exists j: nat :: j < i && AcceptedAt(arrivals, j) && arrivals[j].sequence == s
    {
      AcceptedSetOnly(before, s);
      var j: nat :| j < i && AcceptedAt(before, j) && before[j].sequence == s;
      assert before[..j] == arrivals[..j];
      assert AcceptedAt(arrivals, j);
    }
  }

  /** No sequence is ever accepted twice. */
  lemma AcceptedOnce(arrivals: seq<Arrival>, i: nat, j: nat)
    requires i < j < |arrivals| && AcceptedAt(arrivals, i) && AcceptedAt(arrivals, j)
    ensures arrivals[i].sequence != arrivals[j].sequence
  {
    WindowIsExact(arrivals, j);
  }
}
