/** Oscillation patterns at the end of a sequence of call hashes. */
module Periodicity {
  import opened Bytes

  // The digest of a batch of calls, or of a call and its outcome, read as a number.
  type Hash = nat

  ghost predicate HasPeriod(s: seq<Hash>, period: nat) {
    forall j :: period <= j < |s| ==> RepeatsAt(s, period, j)
  }

  predicate RepeatsAt(s: seq<Hash>, period: nat, j: nat)
    requires period <= j < |s|
  {
    s[j] == s[j - period]
  }

  ghost predicate Uniform(s: seq<Hash>) {
    forall j :: 0 <= j < |s| ==> s[j] == s[0]
  }

  function Tail(s: seq<Hash>, n: nat): seq<Hash>
    requires n <= |s|
  {
    s[|s| - n..]
  }

  /** The last period * repeats hashes repeat with the given period and are not all the same. */
  ghost predicate Oscillates(s: seq<Hash>, period: nat, repeats: nat) {
    && period > 0 && repeats > 0
    && period * repeats <= |s|
    && HasPeriod(Tail(s, period * repeats), period)
    && !Uniform(Tail(s, period * repeats))
  }

  lemma {:induction false} UniformPatternSpreads(s: seq<Hash>, period: nat, j: nat)
    requires 0 < period <= |s| && HasPeriod(s, period) && Uniform(s[..period]) && j < |s|
    ensures s[j] == s[0]
  {
    if j >= period {
      assert RepeatsAt(s, period, j);
      UniformPatternSpreads(s, period, j - period);
    } else {
      assert s[..period][j] == s[..period][0];
    }
  }

  lemma UniformPatternMakesUniform(s: seq<Hash>, period: nat)
    requires 0 < period <= |s|
    ensures HasPeriod(s, period) && Uniform(s[..period]) ==> Uniform(s)
    ensures Uniform(s) ==> Uniform(s[..period])
  {
    if HasPeriod(s, period) && Uniform(s[..period]) {
      forall j | 0 <= j < |s| ensures s[j] == s[0] { UniformPatternSpreads(s, period, j); }
    }
  }

  method AllEqual(pattern: seq<Hash>) returns (r: bool)
    ensures r <==> Uniform(pattern)
  {
    for i := 0 to |pattern|
      invariant forall j :: 0 <= j < i ==> pattern[j] == pattern[0]
    {
      if pattern[i] != pattern[0] { return false; }
    }
    r := true;
  }

  /** Compares the cycle that starts at offset with the first cycle. */
  method CycleMatches(tail: seq<Hash>, period: nat, offset: nat) returns (r: bool)
    requires 0 < period <= offset && offset + period <= |tail|
    ensures r <==> forall i :: 0 <= i < period ==> tail[offset + i] == tail[i]
  {
    for i := 0 to period
      invariant forall j :: 0 <= j < i ==> tail[offset + j] == tail[j]
    {
      if tail[offset + i] != tail[i] { return false; }
    }
    r := true;
  }

  /** Compares every later cycle with the first one. */
  method CyclesRepeat(tail: seq<Hash>, period: nat, cycles: nat) returns (r: bool)
    requires 0 < period <= |tail| && |tail| == period * cycles
    ensures r <==> HasPeriod(tail, period)
  {
    var offset := period;
    for cycle := 1 to cycles
      invariant offset == period * cycle <= |tail|
      invariant forall j :: period <= j < offset ==> RepeatsAt(tail, period, j)
      invariant forall i :: 0 <= i < period ==> tail[offset - period + i] == tail[i]
    {
      ProductGrows(period, cycle + 1, cycles);
      var same := CycleMatches(tail, period, offset);
      if !same {
        var i :| 0 <= i < period && tail[offset + i] != tail[i];
        assert tail[offset - period + i] == tail[i];
        assert !RepeatsAt(tail, period, offset + i);
        return false;
      }
      forall j | offset <= j < offset + period ensures RepeatsAt(tail, period, j) {
        assert tail[offset + (j - offset)] == tail[j - offset] == tail[offset - period + (j - offset)];
      }
      offset := offset + period;
    }
    r := true;
  }

  method HasPeriodicPattern(s: seq<Hash>, period: nat, minRepeats: nat) returns (r: bool)
    ensures r <==> Oscillates(s, period, minRepeats)
  {
    if period == 0 || minRepeats == 0 {
      return false;
    }
    var needed := period * minRepeats;
    if |s| < needed {
      return false;
    }
    var tail := Tail(s, needed);
    ProductGrows(period, 1, minRepeats);
    UniformPatternMakesUniform(tail, period);
    var uniform := AllEqual(tail[..period]);
    if uniform {
      return false;
    }
    r := CyclesRepeat(tail, period, minRepeats);
  }

  lemma ProductGrows(p: nat, a: nat, b: nat)
    requires a <= b
    ensures p * a <= p * b
  {
  }

  /** Fine and Wilf for the two periods in use: together they leave room for one value only. */
  lemma {:induction false} PeriodsTwoAndThreeForceUniform(s: seq<Hash>, j: nat)
    requires |s| >= 4 && HasPeriod(s, 2) && HasPeriod(s, 3) && j < |s|
    ensures s[j] == s[0]
  {
    assert RepeatsAt(s, 2, 2) && RepeatsAt(s, 2, 3) && RepeatsAt(s, 3, 3);
    if j >= 2 { assert RepeatsAt(s, 2, j); PeriodsTwoAndThreeForceUniform(s, j - 2); }
  }

  /** From two repeats on, no sequence oscillates with period 2 and with period 3 at once. */
  lemma NeverBothPeriods(s: seq<Hash>, repeats: nat)
    requires repeats >= 2
    ensures !(Oscillates(s, 2, repeats) && Oscillates(s, 3, repeats))
  {
    if Oscillates(s, 2, repeats) && Oscillates(s, 3, repeats) {
      var short, long := Tail(s, 2 * repeats), Tail(s, 3 * repeats);
      forall j | 3 <= j < |short| ensures RepeatsAt(short, 3, j) {
        assert RepeatsAt(long, 3, repeats + j);
        assert short[j] == long[repeats + j] && short[j - 3] == long[repeats + j - 3];
      }
      forall j | 0 <= j < |short| ensures short[j] == short[0] {
        PeriodsTwoAndThreeForceUniform(short, j);
      }
      assert false;
    }
  }

  /** The period reported when `first` is tried before `second`. */
  ghost function Reported(s: seq<Hash>, first: nat, second: nat, repeats: nat): Option<nat> {
    if Oscillates(s, first, repeats) then Some(first)
    else if Oscillates(s, second, repeats) then Some(second)
    else None
  }

  /** The order of the two tests matters exactly when a single repeat is enough. */
  lemma TestOrderMattersOnlyForOneRepeat(repeats: nat)
    ensures (forall s :: Reported(s, 2, 3, repeats) == Reported(s, 3, 2, repeats)) <==> repeats != 1
  {
    if repeats == 1 {
      var s: seq<Hash> := [1, 2, 3];
      assert Tail(s, 2)[0] != Tail(s, 2)[1] && Tail(s, 3)[0] != Tail(s, 3)[1];
      assert !Uniform(Tail(s, 2)) && !Uniform(Tail(s, 3));
      assert Oscillates(s, 2, 1) && Oscillates(s, 3, 1);
      assert Reported(s, 2, 3, repeats) != Reported(s, 3, 2, repeats);
    } else {
      forall s ensures Reported(s, 2, 3, repeats) == Reported(s, 3, 2, repeats) {
        if repeats >= 2 { NeverBothPeriods(s, repeats); }
      }
    }
  }
}
