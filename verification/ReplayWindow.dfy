/** Bit operations on unbounded non-negative integers, digit by digit. */
module Bits {
  predicate Bit(n: nat, i: nat) {
    if i == 0 then n % 2 == 1 else Bit(n / 2, i - 1)
  }

  function Shl(n: nat, k: nat): nat {
    if k == 0 then n else 2 * Shl(n, k - 1)
  }

  function Shr(n: nat, k: nat): nat {
    if k == 0 then n else Shr(n / 2, k - 1)
  }

  function Or(a: nat, b: nat): nat
    decreases a + b
  {
    if a == 0 && b == 0 then 0
    else (if a % 2 == 1 || b % 2 == 1 then 1 else 0) + 2 * Or(a / 2, b / 2)
  }

  function And(a: nat, b: nat): nat
    decreases a + b
  {
    if a == 0 && b == 0 then 0
    else (if a % 2 == 1 && b % 2 == 1 then 1 else 0) + 2 * And(a / 2, b / 2)
  }

  lemma {:induction false} ZeroBit(i: nat)
    ensures !Bit(0, i)
  {
    if i == 0 {
    } else {
      ZeroBit(i - 1);
    }
  }

  lemma {:induction false} OneBit(i: nat)
    ensures Bit(1, i) <==> i == 0
  {
    if i == 0 {
    } else {
      ZeroBit(i - 1);
    }
  }

  lemma {:induction false} ShlBit(n: nat, k: nat, i: nat)
    ensures Bit(Shl(n, k), i) <==> i >= k && Bit(n, i - k)
  {
    if k == 0 {
    } else {
      assert (2 * Shl(n, k - 1)) / 2 == Shl(n, k - 1);
      if i > 0 { ShlBit(n, k - 1, i - 1); }
    }
  }

  lemma {:induction false} ShrBit(n: nat, k: nat, i: nat)
    ensures Bit(Shr(n, k), i) <==> Bit(n, i + k)
  {
    if k == 0 {
    } else {
      ShrBit(n / 2, k - 1, i);
    }
  }

  lemma {:induction false} OrBit(a: nat, b: nat, i: nat)
    ensures Bit(Or(a, b), i) <==> Bit(a, i) || Bit(b, i)
  {
    if a == 0 && b == 0 {
      ZeroBit(i);
    } else if i > 0 {
      assert Or(a, b) / 2 == Or(a / 2, b / 2);
      OrBit(a / 2, b / 2, i - 1);
    }
  }

  lemma {:induction false} AndBit(a: nat, b: nat, i: nat)
    ensures Bit(And(a, b), i) <==> Bit(a, i) && Bit(b, i)
  {
    if a == 0 && b == 0 {
      ZeroBit(i);
    } else if i > 0 {
      assert And(a, b) / 2 == And(a / 2, b / 2);
      AndBit(a / 2, b / 2, i - 1);
    }
  }

  lemma {:induction false} ShlPositive(n: nat, k: nat)
    requires n > 0
    ensures Shl(n, k) > 0
  {
    if k == 0 {
    } else {
      ShlPositive(n, k - 1);
    }
  }

  /** `(1 << size) - 1` has exactly the bits below `size`. */
  lemma {:induction false} MaskBit(size: nat, i: nat)
    ensures Shl(1, size) > 0
    ensures Bit(Shl(1, size) - 1, i) <==> i < size
  {
    ShlPositive(1, size);
    if size == 0 {
      ZeroBit(i);
    } else {
      ShlPositive(1, size - 1);
      assert (Shl(1, size) - 1) / 2 == Shl(1, size - 1) - 1;
      if i > 0 { MaskBit(size - 1, i - 1); }
    }
  }

  lemma {:induction false} AndZero(n: nat)
    ensures And(n, 0) == 0
  {
    if n == 0 {
    } else {
      AndZero(n / 2);
    }
  }

  /** `seen >> offset & 1` reads bit `offset`. */
  lemma {:induction false} ProbeBit(n: nat, k: nat)
    ensures And(Shr(n, k), 1) != 0 <==> Bit(n, k)
  {
    var shifted := Shr(n, k);
    ShrBit(n, k, 0);
    AndBit(shifted, 1, 0);
    if And(shifted, 1) != 0 && !Bit(n, k) {
      assert And(shifted, 1) == 2 * And(shifted / 2, 0);
      AndZero(shifted / 2);
    }
  }
}

/**
 The sliding replay window over sequence numbers. The bitmap is the code's; the
 ghost set `accepted` is what it stands for.
*/
module ReplayWindows {
  import opened Common
  import opened Bits

  datatype WindowError = NegativeSequence

  /**
   The reference: remember every accepted number, and how far the newest one reached. A number is admitted
   exactly when it was never accepted and is still inside the window.
  */
  datatype Reference = Reference(accepted: set<int>, highest: int)

  const START: Reference := Reference({}, -1)

  predicate Admits(w: Reference, size: nat, sequence: nat) {
    sequence !in w.accepted && sequence > w.highest - size
  }

  function Admit(w: Reference, size: nat, sequence: nat): Reference {
    if !Admits(w, size, sequence) then w
    else Reference(w.accepted + {sequence}, if sequence > w.highest then sequence else w.highest)
  }

  class ReplayWindow {
    const size: nat
    const mask: nat
    var highest: int
    var seen: nat
    /** Every number accepted since construction or the last reset. */
    ghost var accepted: set<int>

    ghost predicate Valid()
      reads this
    {
      && size >= 1
      && mask == Shl(1, size) - 1
      && highest >= -1
      && (highest == -1 ==> accepted == {})
      && (highest >= 0 ==> highest in accepted)
      && (forall s :: s in accepted ==> 0 <= s <= highest)
      && (forall i: nat :: Bit(seen, i) <==> i < size && highest - i in accepted)
    }

    ghost function View(): Reference
      reads this
    {
      Reference(accepted, highest)
    }

    constructor (size: nat)
      requires size >= 1
      ensures Valid() && this.size == size && View() == START
    {
      MaskBit(size, 0);
      this.size := size;
      this.mask := Shl(1, size) - 1;
      this.highest := -1;
      this.seen := 0;
      this.accepted := {};
      new;
      forall i: nat ensures !Bit(0, i) { ZeroBit(i); }
    }

    /** True exactly for a number that was never accepted and is still inside the window. */
    method Check(sequence: int) returns (r: Result<bool, WindowError>)
      requires Valid()
      modifies this
      ensures Valid()
      ensures r == if sequence < 0 then Err(NegativeSequence) else Ok(Admits(old(View()), size, sequence))
      ensures View() == if sequence < 0 then old(View()) else Admit(old(View()), size, sequence)
    {
      if sequence < 0 {
        return Err(NegativeSequence);
      }
      if highest < 0 {
        highest, seen := sequence, 1;
        accepted := {sequence};
        forall i: nat ensures Bit(seen, i) <==> i < size && highest - i in accepted { OneBit(i); }
        return Ok(true);
      }
      if sequence > highest {
        var shift := sequence - highest;
        if shift >= size {
          seen := 1;
          forall i: nat ensures Bit(1, i) <==> i == 0 { OneBit(i); }
        } else {
          ghost var before := seen;
          seen := And(Or(Shl(seen, shift), 1), mask);
          forall i: nat ensures Bit(seen, i) <==> i < size && (i == 0 || (i >= shift && Bit(before, i - shift))) {
            ShlBit(before, shift, i);
            OneBit(i);
            OrBit(Shl(before, shift), 1, i);
            MaskBit(size, i);
            AndBit(Or(Shl(before, shift), 1), mask, i);
          }
        }
        highest := sequence;
        accepted := accepted + {sequence};
        return Ok(true);
      }
      var offset := highest - sequence;
      if offset >= size {
        return Ok(false);
      }
      ProbeBit(seen, offset);
      if And(Shr(seen, offset), 1) != 0 {
        return Ok(false);
      }
      ghost var before := seen;
      seen := Or(seen, Shl(1, offset));
      accepted := accepted + {sequence};
      forall i: nat ensures Bit(seen, i) <==> i == offset || Bit(before, i) {
        ShlBit(1, offset, i);
        if i >= offset { OneBit(i - offset); }
        OrBit(before, Shl(1, offset), i);
      }
      return Ok(true);
    }

    method Reset()
      requires Valid()
      modifies this
      ensures Valid() && View() == START
    {
      highest, seen, accepted := -1, 0, {};
      forall i: nat ensures !Bit(0, i) { ZeroBit(i); }
    }
  }

  function After(size: nat, calls: seq<nat>): Reference {
    if calls == [] then START
    else Admit(After(size, calls[..|calls| - 1]), size, calls[|calls| - 1])
  }

  /** A call with this number was answered with true. */
  ghost predicate Given(calls: seq<nat>, answers: seq<bool>, n: int) {
    exists j :: 0 <= j < |calls| && j < |answers| && answers[j] && calls[j] == n
  }

  lemma GivenOneMore(calls: seq<nat>, answers: seq<bool>, n: int)
    requires |answers| == |calls| > 0
    ensures var last := |calls| - 1;
            Given(calls, answers, n) <==> Given(calls[..last], answers[..last], n)
                                          || (answers[last] && calls[last] == n)
  {
    var last := |calls| - 1;
    if j :| 0 <= j < last && answers[..last][j] && calls[..last][j] == n {
      assert answers[j] && calls[j] == n;
    }
    if j :| 0 <= j < last && answers[j] && calls[j] == n {
      assert answers[..last][j] && calls[..last][j] == n;
    }
  }

  lemma AfterOneMore(w: Reference, size: nat, sequence: nat)
    ensures var after := Admit(w, size, sequence);
            && (forall n :: n in after.accepted <==> n in w.accepted || (Admits(w, size, sequence) && n == sequence))
            && after.highest >= w.highest && (Admits(w, size, sequence) ==> after.highest >= sequence)
            && after.highest in {w.highest, sequence as int}
            && (after.highest != w.highest ==> Admits(w, size, sequence))
  {
  }

  /** What the reference has accepted after some calls: the numbers it answered with true, the highest among them. */
  ghost predicate Recalls(w: Reference, calls: seq<nat>, answers: seq<bool>) {
    && (forall n :: n in w.accepted <==> Given(calls, answers, n))
    && (forall n :: n in w.accepted ==> n <= w.highest) && (w.highest == -1 || w.highest in w.accepted)
  }

  lemma {:induction false} AfterRecalls(size: nat, calls: seq<nat>, answers: seq<bool>)
    requires |answers| == |calls|
    requires forall i :: 0 <= i < |calls| ==> answers[i] == Admits(After(size, calls[..i]), size, calls[i])
    ensures Recalls(After(size, calls), calls, answers)
  {
    if calls == [] {
    } else {
      var last := |calls| - 1;
      assert forall i :: 0 <= i < last ==> calls[..last][..i] == calls[..i];
      AfterRecalls(size, calls[..last], answers[..last]);
      AfterOneMore(After(size, calls[..last]), size, calls[last]);
      forall n ensures n in After(size, calls).accepted <==> Given(calls, answers, n) {
        GivenOneMore(calls, answers, n);
      }
    }
  }

  /**
   In terms of the calls alone: true exactly if no call answered with true had this number, or one `size` or more
   ahead.
  */
  lemma AnsweredExactly(size: nat, calls: seq<nat>, answers: seq<bool>, i: nat)
    requires size >= 1 && |answers| == |calls| && i < |calls|
    requires forall k :: 0 <= k < |calls| ==> answers[k] == Admits(After(size, calls[..k]), size, calls[k])
    ensures answers[i] <==> forall j :: 0 <= j < i && answers[j] ==> calls[j] != calls[i] && calls[j] < calls[i] + size
  {
    var before, given := calls[..i], answers[..i];
    assert forall k :: 0 <= k < i ==> before[..k] == calls[..k];
    AfterRecalls(size, before, given);
    var w := After(size, before);
    if !answers[i] {
      var n := if calls[i] in w.accepted then calls[i] else w.highest;
      assert Given(before, given, n);
      var j :| 0 <= j < i && given[j] && before[j] == n;
      assert answers[j] && calls[j] == n;
    } else {
      forall j | 0 <= j < i && answers[j] ensures calls[j] != calls[i] && calls[j] < calls[i] + size {
        assert given[j] && before[j] == calls[j];
        assert Given(before, given, calls[j]);
      }
    }
  }

  /** Any sequence of calls gets from the bitmap exactly the answers of the reference. */
  method RunOfChecks(size: nat, calls: seq<nat>) returns (answers: seq<bool>)
    requires size >= 1
    ensures |answers| == |calls|
    ensures forall i :: 0 <= i < |calls| ==> answers[i] == Admits(After(size, calls[..i]), size, calls[i])
    ensures forall i :: 0 <= i < |calls| ==>
                          (answers[i] <==> forall j :: 0 <= j < i && answers[j]
                                                       ==> calls[j] != calls[i] && calls[j] < calls[i] + size)
  {
    var window := new ReplayWindow(size);
    answers := [];
    for n := 0 to |calls|
      invariant window.Valid() && window.size == size && fresh(window)
      invariant window.View() == After(size, calls[..n])
      invariant |answers| == n
      invariant forall i :: 0 <= i < n ==> answers[i] == Admits(After(size, calls[..i]), size, calls[i])
    {
      var r := window.Check(calls[n]);
      assert calls[..n + 1][..n] == calls[..n];
      answers := answers + [r.value];
    }
    forall i | 0 <= i < |calls|
      ensures answers[i] <==> forall j :: 0 <= j < i && answers[j]
                                          ==> calls[j] != calls[i] && calls[j] < calls[i] + size
    {
      AnsweredExactly(size, calls, answers, i);
    }
  }
}
