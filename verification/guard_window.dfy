/**
 * The sliding window behind one counter of the loop guard: a sequence of hashes and the counts
 * derived from it. A full window is cut to half its size and the counts are rebuilt from what is
 * left; the new hash is part of that rebuild and is then counted once more.
 */
module GuardWindow {
  import opened Bytes
  import opened Periodicity

  type Counts = map<Hash, nat>

  datatype Window = Window(items: seq<Hash>, counts: Counts)

  const EMPTY: Window := Window([], map[])

  function CountIn(counts: Counts, h: Hash): nat { if h in counts then counts[h] else 0 }

  function Bump(counts: Counts, h: Hash): Counts { counts[h := CountIn(counts, h) + 1] }

  /** The counts agree with a multiset, and hold no key with count zero. */
  ghost predicate Represents(counts: Counts, m: multiset<Hash>) {
    && (forall h :: h in counts <==> h in m)
    && (forall h :: h in counts ==> counts[h] == m[h])
  }

  /** The counts of the first n items. */
  function CountFirst(items: seq<Hash>, n: nat): Counts
    requires n <= |items|
  {
    if n == 0 then map[] else Bump(CountFirst(items, n - 1), items[n - 1])
  }

  function CountsOf(items: seq<Hash>): Counts { CountFirst(items, |items|) }

  lemma {:induction false} CountFirstRepresents(items: seq<Hash>, n: nat)
    requires n <= |items|
    ensures Represents(CountFirst(items, n), multiset(items[..n]))
  {
    if n > 0 {
      CountFirstRepresents(items, n - 1);
      assert items[..n] == items[..n - 1] + [items[n - 1]];
    }
  }

  lemma CountsOfRepresents(items: seq<Hash>)
    ensures Represents(CountsOf(items), multiset(items))
  {
    CountFirstRepresents(items, |items|);
    assert items[..|items|] == items;
  }

  /** `steps` counts the passes through the loop. */
  method RebuildCounts(items: seq<Hash>) returns (counts: Counts, ghost steps: nat)
    ensures counts == CountsOf(items) && steps == |items|
  {
    counts, steps := map[], 0;
    for i := 0 to |items|
      invariant counts == CountFirst(items, i) && steps == i
    {
      counts, steps := Bump(counts, items[i]), steps + 1;
    }
  }

  predicate Overflows(limit: nat, n: nat) { limit > 0 && n > limit }

  /** The sequence after one push: append, and cut to half the limit when over it. */
  function PushItem(limit: nat, items: seq<Hash>, h: Hash): seq<Hash> {
    if Overflows(limit, |items| + 1) then (items + [h])[|items| + 1 - limit / 2..] else items + [h]
  }

  /** One push: a cut rebuilds the counts first; the new hash is counted in either case. */
  function Push(limit: nat, win: Window, h: Hash): Window {
    var items := PushItem(limit, win.items, h);
    Window(items, Bump(if Overflows(limit, |win.items| + 1) then CountsOf(items) else win.counts, h))
  }

  /** The window after the first n of a stream of hashes. */
  function Pushed(limit: nat, hashes: seq<Hash>, n: nat): Window
    requires n <= |hashes|
  {
    if n == 0 then EMPTY else Push(limit, Pushed(limit, hashes, n - 1), hashes[n - 1])
  }

  // ---- The window after any number of pushes ----

  /** How many hashes the window holds after n pushes. */
  function Length(limit: nat, n: nat): nat {
    if n == 0 then 0
    else if Overflows(limit, Length(limit, n - 1) + 1) then limit / 2
    else Length(limit, n - 1) + 1
  }

  /** The number of the last push that pruned, or 0. */
  function LastPrune(limit: nat, n: nat): nat {
    if n == 0 then 0
    else if Overflows(limit, Length(limit, n - 1) + 1) then n
    else LastPrune(limit, n - 1)
  }

  /** The over-counted hash: the one whose push triggered the last prune. */
  function Phantom(limit: nat, hashes: seq<Hash>, n: nat): multiset<Hash>
    requires n <= |hashes|
  {
    if 0 < LastPrune(limit, n) <= n then multiset{hashes[LastPrune(limit, n) - 1]} else multiset{}
  }

  lemma {:induction false} LengthBounds(limit: nat, n: nat)
    ensures Length(limit, n) <= n && (limit > 0 ==> Length(limit, n) <= limit)
    ensures LastPrune(limit, n) <= n
  {
    if n > 0 { LengthBounds(limit, n - 1); }
  }

  /** One push on a window that holds the last `len` hashes. */
  lemma PushItemExact(limit: nat, hashes: seq<Hash>, n: nat, len: nat)
    requires len <= n < |hashes| && (limit > 0 ==> len <= limit)
    ensures PushItem(limit, hashes[n - len..n], hashes[n]) ==
      if Overflows(limit, len + 1) then hashes[n + 1 - limit / 2..n + 1] else hashes[n - len..n + 1]
  {
    var longer := hashes[n - len..n + 1];
    assert hashes[n - len..n] + [hashes[n]] == longer;
    if Overflows(limit, len + 1) { assert longer[len + 1 - limit / 2..] == hashes[n + 1 - limit / 2..n + 1]; }
  }

  lemma {:induction false} ItemsExact(limit: nat, hashes: seq<Hash>, n: nat)
    requires n <= |hashes|
    ensures Length(limit, n) <= n
    ensures Pushed(limit, hashes, n).items == hashes[n - Length(limit, n)..n]
  {
    hide Bump, CountsOf, LastPrune, PushItem, Overflows;
    LengthBounds(limit, n);
    if n > 0 {
      ItemsExact(limit, hashes, n - 1);
      LengthBounds(limit, n - 1);
      PushItemExact(limit, hashes, n - 1, Length(limit, n - 1));
    }
  }

  lemma PushExact(limit: nat, win: Window, phantom: multiset<Hash>, h: Hash)
    requires Represents(win.counts, multiset(win.items) + phantom)
    ensures var pushed := Push(limit, win, h);
      Represents(pushed.counts,
                 multiset(pushed.items) + if Overflows(limit, |win.items| + 1) then multiset{h} else phantom)
  {
    CountsOfRepresents(PushItem(limit, win.items, h));
  }

  lemma {:induction false} CountsExact(limit: nat, hashes: seq<Hash>, n: nat)
    requires n <= |hashes|
    ensures Represents(Pushed(limit, hashes, n).counts,
                       multiset(Pushed(limit, hashes, n).items) + Phantom(limit, hashes, n))
  {
    hide Bump, CountsOf, PushItem;
    if n > 0 {
      CountsExact(limit, hashes, n - 1);
      var win, phantom := Pushed(limit, hashes, n - 1), Phantom(limit, hashes, n - 1);
      PhantomStep(limit, hashes, n);
      PushExact(limit, win, phantom, hashes[n - 1]);
      assert Pushed(limit, hashes, n) == Push(limit, win, hashes[n - 1]);
    }
  }

  lemma PhantomStep(limit: nat, hashes: seq<Hash>, n: nat)
    requires 0 < n <= |hashes|
    ensures Phantom(limit, hashes, n) ==
      if Overflows(limit, |Pushed(limit, hashes, n - 1).items| + 1)
      then multiset{hashes[n - 1]}
      else Phantom(limit, hashes, n - 1)
  {
    hide Pushed;
    ItemsExact(limit, hashes, n - 1);
    LengthBounds(limit, n - 1);
  }

  /**
   * After any pushes the window holds exactly the last Length(..) of them, and its counts are those
   * of the window plus at most one phantom occurrence - none before the first prune.
   */
  lemma WindowExact(limit: nat, hashes: seq<Hash>, n: nat)
    requires n <= |hashes|
    ensures Length(limit, n) <= n && (limit > 0 ==> Length(limit, n) <= limit)
    ensures Pushed(limit, hashes, n).items == hashes[n - Length(limit, n)..n]
    ensures Represents(Pushed(limit, hashes, n).counts,
                       multiset(Pushed(limit, hashes, n).items) + Phantom(limit, hashes, n))
    ensures |Phantom(limit, hashes, n)| <= 1 && (LastPrune(limit, n) == 0 ==> Phantom(limit, hashes, n) == multiset{})
  {
    LengthBounds(limit, n);
    ItemsExact(limit, hashes, n);
    CountsExact(limit, hashes, n);
  }

  /** Where the window stands between two prunes, `since` pushes after the last one. */
  ghost predicate StandsAt(limit: nat, n: nat, since: nat) {
    && limit / 2 + since <= limit && since <= n
    && Length(limit, n) == limit / 2 + since && LastPrune(limit, n) == n - since
  }

  /** How many hashes the rebuilds during the first n pushes have walked over. */
  function RebuildWork(limit: nat, n: nat): nat {
    if n == 0 then 0
    else RebuildWork(limit, n - 1) + if Overflows(limit, Length(limit, n - 1) + 1) then limit / 2 else 0
  }

  /** A push leads to the next place between two prunes, or prunes. */
  lemma NextPlace(limit: nat, n: nat, since: nat)
    requires limit > 0 && StandsAt(limit, n, since)
    ensures StandsAt(limit, n + 1, if limit / 2 + since == limit then 0 else since + 1)
    ensures RebuildWork(limit, n + 1) == RebuildWork(limit, n) + if limit / 2 + since == limit then limit / 2 else 0
  {
  }

  /** x is made up of q periods and a rest. */
  ghost predicate IsMadeUp(x: int, period: nat, q: nat, rest: nat) { x == q * period + rest }

  lemma OneMore(x: int, period: nat, q: nat, rest: nat)
    requires IsMadeUp(x, period, q, rest)
    ensures IsMadeUp(x + 1, period, q, rest + 1)
    ensures rest + 1 == period ==> IsMadeUp(x + 1, period, q + 1, 0)
  {
  }

  lemma OnePeriodMore(x: int, period: nat, q: nat)
    requires IsMadeUp(x, period, q, 0)
    ensures IsMadeUp(x + period, period, q + 1, 0)
  {
  }

  /** After the first prune, one prune follows every limit + 1 - limit/2 pushes. */
  lemma {:induction false} PlaceAfter(limit: nat, n: nat) returns (rounds: nat, since: nat)
    requires Overflows(limit, n)
    ensures StandsAt(limit, n, since) && IsMadeUp(n - limit - 1, limit + 1 - limit / 2, rounds, since)
    ensures IsMadeUp(RebuildWork(limit, n), limit / 2, rounds + 1, 0)
    decreases n
  {
    hide Length, LastPrune, RebuildWork;
    if n == limit + 1 {
      rounds, since := 0, 0;
      FillsUp(limit, limit);
      FirstPrune(limit);
    } else {
      hide IsMadeUp;
      rounds, since := PlaceAfter(limit, n - 1);
      NextPlace(limit, n - 1, since);
      OneMore(n - limit - 2, limit + 1 - limit / 2, rounds, since);
      OnePeriodMore(RebuildWork(limit, n - 1), limit / 2, rounds + 1);
      if limit / 2 + since == limit {
        rounds, since := rounds + 1, 0;
      } else {
        since := since + 1;
      }
    }
  }

  lemma {:induction false} FillsUp(limit: nat, n: nat)
    requires !Overflows(limit, n)
    ensures Length(limit, n) == n && LastPrune(limit, n) == 0 && RebuildWork(limit, n) == 0
  {
    if n > 0 { FillsUp(limit, n - 1); }
  }

  /** Length and last prune in closed form. */
  lemma LengthClosedForm(limit: nat, n: nat)
    ensures !Overflows(limit, n) ==> Length(limit, n) == n && LastPrune(limit, n) == 0
    ensures Overflows(limit, n) ==>
      var since := (n - limit - 1) % (limit + 1 - limit / 2);
      Length(limit, n) == limit / 2 + since && LastPrune(limit, n) == n - since
  {
    hide Length, LastPrune;
    if Overflows(limit, n) {
      var rounds, since := PlaceAfter(limit, n);
      QuotientIsUnique(n - limit - 1, limit + 1 - limit / 2, rounds, since);
    } else {
      FillsUp(limit, n);
    }
  }

  lemma FirstPrune(limit: nat)
    requires limit > 0 && Length(limit, limit) == limit
    ensures Length(limit, limit + 1) == limit / 2 && LastPrune(limit, limit + 1) == limit + 1
    ensures RebuildWork(limit, limit + 1) == RebuildWork(limit, limit) + limit / 2
  {
  }

  lemma AtLeastOnce(d: nat, m: nat)
    requires d >= 1
    ensures d * m >= m
  {
  }

  lemma QuotientIsUnique(x: int, m: nat, q: int, r: int)
    requires x == q * m + r && 0 <= r < m
    ensures x % m == r && x / m == q
  {
    var q', r' := x / m, x % m;
    assert x == q' * m + r';
    assert (q - q') * m == r' - r && (q' - q) * m == r - r';
    if q > q' { AtLeastOnce(q - q', m); }
    if q < q' { AtLeastOnce(q' - q, m); }
  }

  // ---- Cost of the rebuilds ----

  /** The rebuild work in closed form: half a window for the first prune and for each full period since. */
  lemma RebuildWorkClosedForm(limit: nat, n: nat)
    ensures RebuildWork(limit, n) == if Overflows(limit, n) then (PeriodsSince(limit, n) + 1) * (limit / 2) else 0
  {
    hide Length, LastPrune, RebuildWork, PeriodsSince;
    if Overflows(limit, n) {
      var rounds, since := PlaceAfter(limit, n);
      assert PeriodsSince(limit, n) == rounds by {
        QuotientIsUnique(n - limit - 1, limit + 1 - limit / 2, rounds, since);
        PeriodsAreQuotient(limit, n);
      }
    } else {
      FillsUp(limit, n);
    }
  }

  /** How many full periods lie between the first prune and push n. */
  function PeriodsSince(limit: nat, n: nat): nat
    requires Overflows(limit, n)
  {
    (n - limit - 1) / (limit + 1 - limit / 2)
  }

  lemma PeriodsAreQuotient(limit: nat, n: nat)
    requires Overflows(limit, n)
    ensures PeriodsSince(limit, n) == (n - limit - 1) / (limit + 1 - limit / 2)
  {
  }

  lemma {:induction false} WorkBound(limit: nat, n: nat)
    ensures RebuildWork(limit, n) + Length(limit, n) <= n
  {
    if n > 0 { WorkBound(limit, n - 1); }
  }

  /** Rebuilding costs at most one step per push, counting what the window still holds. */
  lemma RebuildIsAmortised(limit: nat, hashes: seq<Hash>, n: nat)
    requires n <= |hashes|
    ensures RebuildWork(limit, n) + |Pushed(limit, hashes, n).items| <= n
  {
    WorkBound(limit, n);
    ItemsExact(limit, hashes, n);
  }
}
