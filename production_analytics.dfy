/**
 The production statistics engine: per data source, a sliding window of time
 slices. Counter events add to the open (last) slice of their source, a
 rotation opens a new slice for every source and drops the oldest, and the
 queries read closed slices only. The game-state inputs the engine reads are
 parameters here: the hub's stored-shapes map, the current time, and the hash
 of a shape definition (an opaque string).
 */
module Analytics {
  import opened Ledger
  import UidKeys

  /** What a building produces: a shape, known by its definition's hash, or an item of another kind (a colour). */
  datatype Item = ShapeItem(definitionHash: string) | OtherItem

  class ProductionAnalytics {
    /** The window length W (the configured number of statistics graph slices). */
    const graphSlices: nat
    /** How long one slice lasts, in the time unit of `Update`'s clock. */
    const sliceDurationSeconds: int

    var history: map<Source, seq<Slice>>
    var lastAnalyticsSlice: int

    /** Every source has a history of at most W slices (true while the constructor fills the window). */
    ghost predicate Filling()
      reads this
    {
      forall src: Source :: src in history && |history[src]| <= graphSlices
    }

    /** Every source has a history of exactly W slices. */
    ghost predicate Valid()
      reads this
    {
      forall src: Source :: src in history && |history[src]| == graphSlices
    }

    /**
     Starts every source with an empty history and rotates W times, so each
     source holds W slices: empty ones for the counters, copies of the stored
     shapes for `stored`.
     */
    constructor (graphSlices: nat, sliceDurationSeconds: int, storedShapes: Slice)
      ensures Valid()
      ensures this.graphSlices == graphSlices && this.sliceDurationSeconds == sliceDurationSeconds
      ensures forall src | src in history :: history[src] == Repeat(NewSliceFor(src, storedShapes), graphSlices)
      ensures lastAnalyticsSlice == 0
    {
      this.graphSlices := graphSlices;
      this.sliceDurationSeconds := sliceDurationSeconds;
      history := map[Produced := [], Stored := [], Delivered := [], DeliveredToStorage := []];
      new;
      forall src: Source
        ensures src in history && history[src] == Repeat(NewSliceFor(src, storedShapes), 0)
      {
        match src
        case Produced =>
        case Stored =>
        case Delivered =>
        case DeliveredToStorage =>
      }
      var i := 0;
      while i < graphSlices
        invariant i <= graphSlices
        invariant forall src: Source :: src in history && history[src] == Repeat(NewSliceFor(src, storedShapes), i)
      {
        StartNewSlice(storedShapes);
        forall src | src in history
          ensures history[src] == Repeat(NewSliceFor(src, storedShapes), i + 1)
        {
          RotatedRepeat(NewSliceFor(src, storedShapes), i, graphSlices);
        }
        i := i + 1;
      }
      lastAnalyticsSlice := 0;
    }

    /** Counts one delivered shape in the open slice of `delivered`. */
    method OnShapeDelivered(definitionHash: string)
      requires Valid() && graphSlices >= 1
      modifies this
      ensures Valid() && lastAnalyticsSlice == old(lastAnalyticsSlice)
      ensures history == old(history)[Delivered := RecordAtTail(old(history)[Delivered], definitionHash, 1)]
    {
      var entry := history[Delivered];
      var tail := entry[|entry| - 1];
      history := history[Delivered := entry[|entry| - 1 := tail[definitionHash := Lookup(tail, definitionHash) + 1]]];
    }

    /** Counts one produced item in the open slice of `produced`, if it is a shape; other items change nothing. */
    method OnItemProduced(item: Item)
      requires Valid() && (item.ShapeItem? ==> graphSlices >= 1)
      modifies this
      ensures Valid() && lastAnalyticsSlice == old(lastAnalyticsSlice)
      ensures item.ShapeItem? ==>
        history == old(history)[Produced := RecordAtTail(old(history)[Produced], item.definitionHash, 1)]
      ensures item.OtherItem? ==> history == old(history)
    {
      if item.ShapeItem? {
        var key := item.definitionHash;
        var entry := history[Produced];
        var tail := entry[|entry| - 1];
        history := history[Produced := entry[|entry| - 1 := tail[key := Lookup(tail, key) + 1]]];
      }
    }

    /** Adds `count` under the text of `uid` in the open slice of `deliveredToStorage`. */
    method OnItemDeliveredToStorage(uid: UidKeys.Uid, count: int)
      requires Valid() && graphSlices >= 1
      modifies this
      ensures Valid() && lastAnalyticsSlice == old(lastAnalyticsSlice)
      ensures history == old(history)[DeliveredToStorage :=
        RecordAtTail(old(history)[DeliveredToStorage], UidKeys.KeyOf(uid), count)]
    {
      var key := UidKeys.KeyOf(uid);
      var entry := history[DeliveredToStorage];
      var tail := entry[|entry| - 1];
      history := history[DeliveredToStorage := entry[|entry| - 1 := tail[key := Lookup(tail, key) + count]]];
    }

    /**
     Opens a new slice in every source (a copy of `storedShapes` for `stored`,
     an empty one otherwise), then shifts each history down to W slices.
     */
    method StartNewSlice(storedShapes: Slice)
      requires Filling()
      modifies this
      ensures Filling() && lastAnalyticsSlice == old(lastAnalyticsSlice)
      ensures history == RotateAll(old(history), storedShapes, graphSlices)
    {
      RotateFirstNone(old(history), storedShapes, graphSlices);
      for i := 0 to |SourceOrder|
        invariant lastAnalyticsSlice == old(lastAnalyticsSlice)
        invariant history == RotateFirst(old(history), storedShapes, graphSlices, i)
      {
        var src := SourceOrder[i];
        var ledger := history[src];
        assert ledger == old(history)[src] by {
          RankOfOrder(i);
        }
        if src == Stored {
          ledger := ledger + [storedShapes];
        } else {
          ledger := ledger + [map[]];
        }
        ghost var grown := ledger;
        while |ledger| > graphSlices
          invariant |ledger| <= |grown| && ledger == grown[|grown| - |ledger|..]
          invariant |ledger| >= graphSlices || ledger == grown
          decreases |ledger|
        {
          ledger := ledger[1..];
        }
        assert ledger == Rotated(old(history)[src], NewSliceFor(src, storedShapes), graphSlices) by {
          ShiftedIsTrim(ledger, grown, graphSlices);
        }
        RotateFirstStep(old(history), storedShapes, graphSlices, i);
        history := history[src := ledger];
      }
      RotateFirstAll(old(history), storedShapes, graphSlices);
      RotateAllKeepsWindow(old(history), storedShapes, graphSlices);
    }

    /** The count of `shapeKey` in the most recently closed slice of `dataSource`. */
    function GetCurrentShapeRate(dataSource: Source, shapeKey: string): (r: int)
      reads this
      requires Valid() && graphSlices >= 2
      ensures GetPastShapeRate(dataSource, shapeKey, 0) == Ok(r)
    {
      CurrentRate(history[dataSource], shapeKey)
    }

    /**
     The count of `shapeKey` `historyOffset` slices before the most recently
     closed one; an offset outside [0, W - 1) fails, so every offset fails
     when W <= 1.
     */
    function GetPastShapeRate(dataSource: Source, shapeKey: string, historyOffset: int): (r: Result<int>)
      reads this
      requires Valid()
      ensures r.Ok? <==> 0 <= historyOffset < graphSlices - 1
      ensures r.Err? ==> r.error == InvalidSliceOffset(historyOffset)
      ensures r.Ok? ==> r.value == Lookup(history[dataSource][graphSlices - 2 - historyOffset], shapeKey)
    {
      PastRate(history[dataSource], shapeKey, historyOffset)
    }

    /**
     A copy of the most recently closed slice of `dataSource`, with every key
     of the ten slices before it added at count 0 where it is missing. A window
     of fewer than two slices has no closed slice, and the copy starts empty.
     */
    method GetCurrentShapeRates(dataSource: Source) returns (baseValues: Slice)
      requires Valid()
      ensures baseValues == CurrentRates(history[dataSource])
    {
      var slices := history[dataSource];
      var current := if |slices| >= 2 then slices[|slices| - 2] else map[];
      baseValues := current;
      ZeroFillNothing(current);
      for i := 0 to Lookback
        invariant baseValues == ZeroFill(current, LookbackKeys(slices, i))
      {
        ghost var filled := LookbackKeys(slices, i);
        var index := |slices| - i - 3;
        if index >= 0 {
          var pastValues := slices[index];
          var remaining := pastValues.Keys;
          while remaining != {}
            invariant remaining <= pastValues.Keys
            invariant filled + remaining == LookbackKeys(slices, i) + pastValues.Keys
            invariant baseValues == ZeroFill(current, filled)
            decreases remaining
          {
            var key :| key in remaining;
            ZeroFillStep(current, filled, key);
            baseValues := baseValues[key := Lookup(baseValues, key)];
            remaining := remaining - {key};
            filled := filled + {key};
          }
        }
        assert filled == LookbackKeys(slices, i + 1);
      }
    }

    /** Rotates, and records the time of rotation, once more than one slice duration has passed. */
    method Update(now: int, storedShapes: Slice)
      requires Valid()
      modifies this
      ensures Valid()
      ensures now - old(lastAnalyticsSlice) > sliceDurationSeconds ==>
        lastAnalyticsSlice == now && history == RotateAll(old(history), storedShapes, graphSlices)
      ensures now - old(lastAnalyticsSlice) <= sliceDurationSeconds ==>
        lastAnalyticsSlice == old(lastAnalyticsSlice) && history == old(history)
    {
      if now - lastAnalyticsSlice > sliceDurationSeconds {
        lastAnalyticsSlice := now;
        StartNewSlice(storedShapes);
        RotateAllKeepsWindow(old(history), storedShapes, graphSlices);
      }
    }
  }
}
