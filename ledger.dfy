/**
 The history of one analytics data source, as plain values: an ordered list of
 time slices, oldest first, each mapping a key (a shape hash or a storage uid)
 to a count. The last slice is the open one that counter events write into;
 every other slice is closed. The functions here are the specification that the
 methods of `Analytics.ProductionAnalytics` are proved against.
 */
module Ledger {

  /** One time slice: key -> accumulated count (or, for `stored`, a snapshot). */
  type Slice = map<string, int>

  /** The four data sources of the engine, a closed set. */
  datatype Source = Produced | Stored | Delivered | DeliveredToStorage

  /** The order in which the history object lists its sources. */
  const SourceOrder: seq<Source> := [Produced, Stored, Delivered, DeliveredToStorage]

  /** The position of a source in `SourceOrder`. */
  function Rank(src: Source): (r: nat)
    ensures r < |SourceOrder| && SourceOrder[r] == src
  {
    match src
    case Produced => 0
    case Stored => 1
    case Delivered => 2
    case DeliveredToStorage => 3
  }

  lemma RankOfOrder(n: nat)
    requires n < |SourceOrder|
    ensures Rank(SourceOrder[n]) == n
  {
    if n == 0 {} else if n == 1 {} else if n == 2 {} else {}
  }

  /** How many closed slices before the current one `CurrentRates` consults. */
  const Lookback: nat := 10

  datatype QueryError = InvalidSliceOffset(offset: int)

  datatype Result<T> = Ok(value: T) | Err(error: QueryError)

  /** The count a slice holds for a key, an absent key reading as 0. */
  function Lookup(s: Slice, key: string): (r: int)
  {
    if key in s then s[key] else 0
  }

  // ---------------------------------------------------------------------------
  // Counter events: writing into the open tail slice
  // ---------------------------------------------------------------------------

  /** Adds `delta` to the entry of `key`, creating it when absent. */
  function Bump(s: Slice, key: string, delta: int): (r: Slice)
    ensures r.Keys == s.Keys + {key}
    ensures Lookup(r, key) == Lookup(s, key) + delta
    ensures forall k :: k in s && k != key ==> r[k] == s[k]
  {
    s[key := Lookup(s, key) + delta]
  }

  /** The open slice of a ledger. */
  function Tail(h: seq<Slice>): (r: Slice)
    requires |h| >= 1
  {
    h[|h| - 1]
  }

  /** The ledger after a counter event for `key` with amount `delta`. */
  function RecordAtTail(h: seq<Slice>, key: string, delta: int): (r: seq<Slice>)
    requires |h| >= 1
    ensures |r| == |h|
    ensures r[..|h| - 1] == h[..|h| - 1]
    ensures Tail(r).Keys == Tail(h).Keys + {key}
    ensures Lookup(Tail(r), key) == Lookup(Tail(h), key) + delta
    ensures forall k :: k != key ==> Lookup(Tail(r), k) == Lookup(Tail(h), k)
  {
    h[|h| - 1 := Bump(h[|h| - 1], key, delta)]
  }

  /** One counter event: a key and the amount added to it. */
  datatype Event = Event(key: string, delta: int)

  /** The ledger after a run of counter events within one open period. */
  function RecordAll(h: seq<Slice>, events: seq<Event>): (r: seq<Slice>)
    requires |h| >= 1
    ensures |r| == |h|
    decreases |events|
  {
    if events == [] then h
    else RecordAll(RecordAtTail(h, events[0].key, events[0].delta), events[1..])
  }

  /** The sum of the amounts recorded for `key` in `events`. */
  function SumFor(events: seq<Event>, key: string): (r: int)
    decreases |events|
  {
    if events == [] then 0
    else (if events[0].key == key then events[0].delta else 0) + SumFor(events[1..], key)
  }

  /**
   Counter accumulation: within one open period, the tail ends up holding, for
   every key, what it held before plus the sum of that key's amounts, whatever
   the order of the events; the closed slices are untouched.
   */
  lemma {:induction false} RecordAllSums(h: seq<Slice>, events: seq<Event>, key: string)
    requires |h| >= 1
    ensures RecordAll(h, events)[..|h| - 1] == h[..|h| - 1]
    ensures Lookup(Tail(RecordAll(h, events)), key) == Lookup(Tail(h), key) + SumFor(events, key)
    decreases |events|
  {
    if events != [] {
      var h' := RecordAtTail(h, events[0].key, events[0].delta);
      RecordAllSums(h', events[1..], key);
    }
  }

  // ---------------------------------------------------------------------------
  // Rotation
  // ---------------------------------------------------------------------------

  /** The slice a rotation opens: a copy of the stored-shapes map for `stored`, empty otherwise. */
  function NewSliceFor(src: Source, storedShapes: Slice): (r: Slice)
  {
    if src == Stored then storedShapes else map[]
  }

  /** Drops slices from the front until at most `w` remain. */
  function Trim(g: seq<Slice>, w: nat): (r: seq<Slice>)
  {
    if |g| <= w then g else g[|g| - w..]
  }

  /** The ledger after a rotation: append `next`, then shift down to `w` slices. */
  function Rotated(h: seq<Slice>, next: Slice, w: nat): (r: seq<Slice>)
  {
    Trim(h + [next], w)
  }

  /**
   A rotation of a ledger that holds at most `w` slices grows it by one until
   the window is full, and from then on evicts exactly the oldest slice: every
   retained slice moves one place toward the front unchanged, and the new open
   slice is `next`.
   */
  lemma RotatedShifts(h: seq<Slice>, next: Slice, w: nat)
    requires |h| <= w
    ensures |h| < w ==> Rotated(h, next, w) == h + [next]
    ensures |h| == w && w >= 1 ==> Rotated(h, next, w) == h[1..] + [next]
    ensures |h| == w ==> |Rotated(h, next, w)| == w
  {
  }

  /** The history of all sources after one rotation. */
  function RotateAll(history: map<Source, seq<Slice>>, storedShapes: Slice, w: nat): (r: map<Source, seq<Slice>>)
    ensures r.Keys == history.Keys
  {
    map src | src in history :: Rotated(history[src], NewSliceFor(src, storedShapes), w)
  }

  /**
   Rotating a full window: for every source the oldest slice is evicted, the
   others move one place toward the front unchanged, and the new open slice is
   empty for the counter sources and equal to the stored-shapes map for
   `stored` (a value, so later changes to the hub's map cannot reach it).
   */
  lemma RotationOpensSlice(history: map<Source, seq<Slice>>, storedShapes: Slice, w: nat, src: Source)
    requires src in history && |history[src]| == w >= 1
    ensures |RotateAll(history, storedShapes, w)[src]| == w
    ensures RotateAll(history, storedShapes, w)[src][..w - 1] == history[src][1..]
    ensures src == Stored ==> RotateAll(history, storedShapes, w)[src][w - 1] == storedShapes
    ensures src != Stored ==> RotateAll(history, storedShapes, w)[src][w - 1] == map[]
  {
    RotatedShifts(history[src], NewSliceFor(src, storedShapes), w);
  }

  /**
   A rotation never takes a source past the window, and keeps every source
   that has reached it at exactly `w` slices.
   */
  lemma RotateAllKeepsWindow(history: map<Source, seq<Slice>>, storedShapes: Slice, w: nat)
    requires forall src | src in history :: |history[src]| <= w
    ensures forall src | src in history :: |RotateAll(history, storedShapes, w)[src]| <= w
    ensures forall src | src in history && |history[src]| == w :: |RotateAll(history, storedShapes, w)[src]| == w
  {
    forall src | src in history
      ensures |RotateAll(history, storedShapes, w)[src]| <= w
      ensures |history[src]| == w ==> |RotateAll(history, storedShapes, w)[src]| == w
    {
      RotatedShifts(history[src], NewSliceFor(src, storedShapes), w);
    }
  }

  /** The history midway through a rotation: the first `n` sources of `SourceOrder` rotated, the rest not yet. */
  function RotateFirst(history: map<Source, seq<Slice>>, storedShapes: Slice, w: nat, n: nat): (r: map<Source, seq<Slice>>)
    ensures r.Keys == history.Keys
  {
    map src | src in history ::
      if Rank(src) < n then Rotated(history[src], NewSliceFor(src, storedShapes), w) else history[src]
  }

  /** Rotating source number `n` of `SourceOrder` takes the history one source further through the rotation. */
  lemma RotateFirstStep(history: map<Source, seq<Slice>>, storedShapes: Slice, w: nat, n: nat)
    requires n < |SourceOrder| && SourceOrder[n] in history
    ensures RotateFirst(history, storedShapes, w, n + 1) ==
      RotateFirst(history, storedShapes, w, n)[SourceOrder[n] :=
        Rotated(history[SourceOrder[n]], NewSliceFor(SourceOrder[n], storedShapes), w)]
  {
    var next := SourceOrder[n];
    RankOfOrder(n);
    var before := RotateFirst(history, storedShapes, w, n);
    var after := RotateFirst(history, storedShapes, w, n + 1);
    forall src | src in history
      ensures after[src] == before[next := Rotated(history[next], NewSliceFor(next, storedShapes), w)][src]
    {
      if src != next {
        assert Rank(src) != n;
      }
    }
  }

  /** Before the first source of `SourceOrder` nothing has rotated. */
  lemma RotateFirstNone(history: map<Source, seq<Slice>>, storedShapes: Slice, w: nat)
    ensures RotateFirst(history, storedShapes, w, 0) == history
  {
    var none := RotateFirst(history, storedShapes, w, 0);
    forall src | src in history
      ensures none[src] == history[src]
    {
    }
  }

  /** After the last source of `SourceOrder`, every source has rotated. */
  lemma RotateFirstAll(history: map<Source, seq<Slice>>, storedShapes: Slice, w: nat)
    ensures RotateFirst(history, storedShapes, w, |SourceOrder|) == RotateAll(history, storedShapes, w)
  {
    var all := RotateFirst(history, storedShapes, w, |SourceOrder|);
    forall src | src in history
      ensures all[src] == RotateAll(history, storedShapes, w)[src]
    {
    }
  }

  /** The shifting loop of a rotation ends with the last `w` slices (or all of them, if fewer). */
  lemma ShiftedIsTrim(ledger: seq<Slice>, grown: seq<Slice>, w: nat)
    requires |ledger| <= |grown| && ledger == grown[|grown| - |ledger|..]
    requires |ledger| >= w || ledger == grown
    requires |ledger| <= w
    ensures ledger == Trim(grown, w)
  {
  }

  /** `count` copies of `s`: a source's history right after construction. */
  function Repeat(s: Slice, count: nat): (r: seq<Slice>)
    ensures |r| == count
    ensures forall i :: 0 <= i < count ==> r[i] == s
  {
    seq(count, _ => s)
  }

  /** While the window is filling, rotating in `s` after `count` copies of `s` gives `count + 1` copies. */
  lemma RotatedRepeat(s: Slice, count: nat, w: nat)
    requires count < w
    ensures Rotated(Repeat(s, count), s, w) == Repeat(s, count + 1)
  {
    RotatedShifts(Repeat(s, count), s, w);
  }

  // ---------------------------------------------------------------------------
  // Queries: they read closed slices only
  // ---------------------------------------------------------------------------

  /** The count of `key` in the most recently closed slice. */
  function CurrentRate(h: seq<Slice>, key: string): (r: int)
    requires |h| >= 2
  {
    Lookup(h[|h| - 2], key)
  }

  /**
   The count of `key` `offset` slices before the most recently closed one, the
   window length being |h|. An offset outside [0, |h| - 1) is an error.
   */
  function PastRate(h: seq<Slice>, key: string, offset: int): (r: Result<int>)
    ensures r.Ok? <==> 0 <= offset < |h| - 1
    ensures r.Err? ==> r.error == InvalidSliceOffset(offset)
    ensures r.Ok? ==> r.value == Lookup(h[|h| - 2 - offset], key)
  {
    if 0 <= offset < |h| - 1 then Ok(Lookup(h[|h| - 2 - offset], key))
    else Err(InvalidSliceOffset(offset))
  }

  /**
   After a rotation of a full window, what the queries read at offset `k + 1`
   is what they read at offset `k` before it, and the current rate reads the
   slice that was the open tail.
   */
  lemma RotationAgesQueries(h: seq<Slice>, next: Slice, key: string, offset: int)
    requires |h| >= 2
    ensures CurrentRate(Rotated(h, next, |h|), key) == Lookup(h[|h| - 1], key)
    ensures 0 <= offset < |h| - 2 ==>
      PastRate(Rotated(h, next, |h|), key, offset + 1) == PastRate(h, key, offset)
  {
    RotatedShifts(h, next, |h|);
  }

  /** `key` occurs in the slice `back` places before the most recently closed one. */
  predicate InOlderSlice(h: seq<Slice>, back: nat, key: string)
  {
    |h| >= 3 + back && key in h[|h| - 3 - back]
  }

  /** The keys of the slice `back` places before the most recently closed one, if it exists. */
  function OlderKeys(h: seq<Slice>, back: nat): (r: set<string>)
  {
    if |h| >= 3 + back then h[|h| - 3 - back].Keys else {}
  }

  /** The keys of the `n` slices before the most recently closed one (fewer where the history runs out). */
  function LookbackKeys(h: seq<Slice>, n: nat): (r: set<string>)
  {
    if n == 0 then {} else LookbackKeys(h, n - 1) + OlderKeys(h, n - 1)
  }

  lemma {:induction false} LookbackKeysMeaning(h: seq<Slice>, n: nat, key: string)
    ensures key in LookbackKeys(h, n) <==>
      exists back: nat :: back < n && InOlderSlice(h, back, key)
  {
    if n > 0 {
      LookbackKeysMeaning(h, n - 1, key);
      if key in OlderKeys(h, n - 1) {
        assert InOlderSlice(h, n - 1, key);
      }
    }
  }

  /** Every key of `keys` not already in `base` added with count 0. */
  function ZeroFill(base: Slice, keys: set<string>): (r: Slice)
  {
    base + map k | k in keys && k !in base :: 0
  }

  /** Zero-filling no keys leaves the slice as it is. */
  lemma ZeroFillNothing(base: Slice)
    ensures ZeroFill(base, {}) == base
  {
  }

  /** Zero-filling one more key adds it with count 0 unless it is already there. */
  lemma ZeroFillStep(base: Slice, keys: set<string>, key: string)
    ensures ZeroFill(base, keys + {key}) == ZeroFill(base, keys)[key := Lookup(ZeroFill(base, keys), key)]
  {
  }

  /**
   The most recently closed slice, or nothing when the window is too short to
   have one (`Object.assign` from `undefined` copies nothing).
   */
  function LastClosed(h: seq<Slice>): (r: Slice)
  {
    if |h| >= 2 then h[|h| - 2] else map[]
  }

  /** What `getCurrentShapeRates` returns for a source's history. */
  function CurrentRates(h: seq<Slice>): (r: Slice)
  {
    ZeroFill(LastClosed(h), LookbackKeys(h, Lookback))
  }

  /**
   The zero-fill merge keeps every entry of the most recently closed slice with
   its value, adds with count 0 every key of the ten slices before it that the
   closed slice lacks, and holds nothing else.
   */
  lemma CurrentRatesMeaning(h: seq<Slice>, key: string)
    ensures key in LastClosed(h) ==> key in CurrentRates(h) && CurrentRates(h)[key] == LastClosed(h)[key]
    ensures key !in LastClosed(h) && (exists back: nat :: back < Lookback && InOlderSlice(h, back, key))
      ==> key in CurrentRates(h) && CurrentRates(h)[key] == 0
    ensures key in CurrentRates(h) ==>
      key in LastClosed(h) || exists back: nat :: back < Lookback && InOlderSlice(h, back, key)
  {
    LookbackKeysMeaning(h, Lookback, key);
  }

  /** A window too short to have a closed slice reports no rates at all. */
  lemma CurrentRatesShortWindow(h: seq<Slice>)
    requires |h| < 2
    ensures CurrentRates(h) == map[]
  {
    forall key | key in CurrentRates(h)
      ensures false
    {
      CurrentRatesMeaning(h, key);
    }
  }

  /** Every rate the merge reports agrees with `CurrentRate`, absent keys included. */
  lemma CurrentRatesAgree(h: seq<Slice>, key: string)
    requires |h| >= 2
    ensures Lookup(CurrentRates(h), key) == CurrentRate(h, key)
  {
  }

  // ---------------------------------------------------------------------------
  // A worked example
  // ---------------------------------------------------------------------------

  /**
   A window of five slices: "A" is counted 3 times and "B" once, the window
   rotates, "A" is counted twice more, and it rotates again. The current rate
   of "A" is then 2, the merged rates hold "B" at 0 (seen one slice earlier),
   and an offset of 100 is refused.
   */
  lemma FiveSliceScenario()
    ensures var h0 := Repeat(map[], 5);
            var h1 := Rotated(RecordAtTail(RecordAtTail(h0, "A", 3), "B", 1), map[], 5);
            var h2 := Rotated(RecordAtTail(h1, "A", 2), map[], 5);
            && CurrentRate(h1, "A") == 3 && CurrentRate(h1, "B") == 1 && CurrentRate(h1, "C") == 0
            && CurrentRate(h2, "A") == 2
            && CurrentRates(h2) == map["A" := 2, "B" := 0]
            && PastRate(h2, "A", 100) == Err(InvalidSliceOffset(100))
  {
    var h0 := Repeat(map[], 5);
    var h1 := Rotated(RecordAtTail(RecordAtTail(h0, "A", 3), "B", 1), map[], 5);
    var h2 := Rotated(RecordAtTail(h1, "A", 2), map[], 5);
    RotatedShifts(RecordAtTail(RecordAtTail(h0, "A", 3), "B", 1), map[], 5);
    RotatedShifts(RecordAtTail(h1, "A", 2), map[], 5);
    assert LookbackKeys(h2, Lookback) == {"A", "B"} by {
      forall key
        ensures key in LookbackKeys(h2, Lookback) <==> key in {"A", "B"}
      {
        LookbackKeysMeaning(h2, Lookback, key);
        if key in {"A", "B"} {
          assert InOlderSlice(h2, 0, key);
        }
      }
    }
  }
}
