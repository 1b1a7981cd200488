# Production analytics: a verified model

This project models the production statistics engine of shapez.io,
`ProductionAnalytics` in `src/js/game/production_analytics.js`. The engine keeps
one history for each of four data sources: `produced`, `stored`, `delivered`
and `deliveredToStorage`. A history is a window of W time slices, oldest first.
Each slice maps a key to a count. The key is a shape definition's hash, or,
for `deliveredToStorage`, the text of the uid argument (`uid.toString()`).

- Counter events add to the last slice of their source. This is the open slice.
- A rotation (`startNewSlice`) appends a new slice to every source, then shifts
  the history back down to W slices. The new slice is empty for the counter
  sources. For `stored` it is a copy of the hub's stored-shapes map.
- `update` rotates once more than one slice duration has passed since the last
  rotation.
- The queries read the second-to-last slice (the most recently closed one), or
  slices further back. They never read the open slice. `getCurrentShapeRates`
  also zero-fills keys seen in the ten slices before that one.

Files:

- `ledger.dfy`, module `Ledger`: one source's history as a value (`seq<Slice>`).
  It holds the functions that specify recording, rotation and the queries, and
  the lemmas about them.
- `uid_keys.dfy`, module `UidKeys`: the text a uid argument is counted under.
  A numeric uid gives its decimal digits, which parse back to it; a string
  gives itself.
- `production_analytics.dfy`, module `Analytics`: the class
  `ProductionAnalytics`. Its field `history: map<Source, seq<Slice>>` is updated
  in place by the event handlers, `StartNewSlice` and `Update`. Each of these
  methods is proved against the `Ledger` functions.

The game-state inputs are parameters:

- the hub's stored-shapes map is passed to the constructor, `StartNewSlice`
  and `Update`;
- the current time is an `int` passed to `Update`;
- a shape definition is its hash, an opaque string;
- an item is either `ShapeItem(definitionHash)` or `OtherItem`.

W (`globalConfig.statisticsGraphSlices`) and the slice duration
(`globalConfig.analyticsSliceDurationSeconds`) are constants fixed by the
constructor. Counts are unbounded integers, and a missing key reads as 0.

The model follows the code at its edges:

- `getPastShapeRate` accepts offsets `0 <= offset < W - 1`. So offset W - 2,
  which reads the oldest slice, is valid.
- The lookback of `getCurrentShapeRates` is the fixed literal 10. Slices that
  would lie before the start of the window are skipped without an error
  (`for…in` over `undefined` does nothing).
- The constructor accepts any W. Nothing rejects a small window, and each
  operation behaves in its own way when W is small:
  - the event handlers write through `entry[entry.length - 1]`, which throws
    when W = 0, so they require W >= 1 whenever they write; `onItemProduced`
    checks the item first, and a non-shape item returns without writing, so
    it needs W >= 1 only for a shape item;
  - `getCurrentShapeRate` reads a property of `slices[slices.length - 2]`,
    which throws when W <= 1, so it requires W >= 2;
  - `getPastShapeRate` checks its offset first, and for W <= 1 no offset
    passes, so it fails for every offset and needs no bound on W;
  - `getCurrentShapeRates` copies from `undefined` when W <= 1, which copies
    nothing, and the lookback finds no slices, so it returns an empty map.
- A source outside the four cannot be named, because `Source` is a closed
  datatype. The JavaScript would read `undefined` and throw.

## Model

| member | source | states |
|---|---|---|
| `Analytics.ProductionAnalytics.constructor` | src/js/game/production_analytics.js:24-44 | after W rotations from empty histories, every source holds exactly W slices: all empty for the counter sources, all copies of the stored shapes for `stored`; the last rotation time is 0 |
| `Analytics.ProductionAnalytics.OnShapeDelivered` | src/js/game/production_analytics.js:49-53 | the open slice of `delivered` gains 1 under the shape's hash (absent counts as 0); every other source, slice and key is unchanged and the window keeps W slices |
| `Analytics.ProductionAnalytics.OnItemProduced` | src/js/game/production_analytics.js:58-65 | a shape item adds 1 under its hash to the open slice of `produced`; any other item leaves the whole history unchanged, and needs no slice to exist (W = 0 is accepted) |
| `Analytics.ProductionAnalytics.OnItemDeliveredToStorage` | src/js/game/production_analytics.js:71-75 | the open slice of `deliveredToStorage` gains `count` under the text of `uid` (`KeyOf`); nothing else changes |
| `Analytics.ProductionAnalytics.StartNewSlice` | src/js/game/production_analytics.js:80-92 | the push-then-shift loop over the four sources leaves every history equal to `RotateAll` of the old one, that is, appended with its new slice and trimmed to the last W slices |
| `Analytics.ProductionAnalytics.GetCurrentShapeRate` | src/js/game/production_analytics.js:99-102 | the current rate equals the past rate at offset 0, which succeeds |
| `Analytics.ProductionAnalytics.GetPastShapeRate` | src/js/game/production_analytics.js:110-118 | for any W, fails exactly when the offset is outside [0, W - 1) (so always when W <= 1); otherwise it is the key's count in slice W - 2 - offset, or 0 when absent |
| `Analytics.ProductionAnalytics.GetCurrentShapeRates` | src/js/game/production_analytics.js:124-139 | for any W, the nested copy-and-fill loops compute exactly `CurrentRates` of the source's history, which `CurrentRatesMeaning` characterises; the history is only read |
| `Analytics.ProductionAnalytics.Update` | src/js/game/production_analytics.js:141-146 | rotates and sets the last rotation time to `now` if and only if `now - last > slice duration`; otherwise history and time are unchanged; W slices per source are kept either way |
| `Ledger.Bump` | src/js/game/production_analytics.js:52 | the entry becomes its old count (0 when absent) plus `delta`: the key set grows by exactly `key`, the key's count grows by `delta`, every other entry is kept |
| `Ledger.RecordAtTail` | src/js/game/production_analytics.js:49-75 | a counter event keeps the length and every closed slice, and changes only the given key of the open slice, by `delta` |
| `Ledger.RecordAllSums` | src/js/game/production_analytics.js:49-75 | over any run of events in one open period the open slice holds, for each key, its earlier count plus the sum of that key's deltas, in whatever order they came; closed slices are untouched |
| `Ledger.RotatedShifts` | src/js/game/production_analytics.js:84-90 | append-then-shift grows a short window by one slice, and on a full window evicts exactly the oldest slice: retained slices move one place forward unchanged and the new slice is last |
| `Ledger.RotationOpensSlice` | src/js/game/production_analytics.js:81-91 | after a rotation of a full window each source still has W slices, the former slices 1..W-1 are now 0..W-2, and the new open slice is `{}` for counter sources and the stored-shapes map for `stored` |
| `Ledger.RotateAllKeepsWindow` | src/js/game/production_analytics.js:88-90 | a rotation never takes a source past W slices and keeps every source that has W slices at exactly W |
| `Ledger.PastRate` | src/js/game/production_analytics.js:110-118 | for a window of any length W, the offset guard succeeds if and only if 0 <= offset < W - 1, failure carries the offset, and success reads slice W - 2 - offset with absent keys as 0 |
| `Ledger.RotationAgesQueries` | src/js/game/production_analytics.js:99-118 | after a rotation, the current rate reads what was the open slice, and the past rate at offset k + 1 equals the past rate at offset k before the rotation |
| `Ledger.LookbackKeysMeaning` | src/js/game/production_analytics.js:130-136 | a key is among the lookback keys if and only if it occurs in one of the (up to) ten slices before the most recently closed one that exist in the window |
| `Ledger.CurrentRatesMeaning` | src/js/game/production_analytics.js:124-139 | the merged rates keep every entry of the most recently closed slice (none when W <= 1) with its value, add with 0 every key of the ten earlier slices that it lacks, and contain no other key |
| `Ledger.CurrentRatesShortWindow` | src/js/game/production_analytics.js:124-139 | a window of fewer than two slices yields an empty map of rates |
| `Ledger.CurrentRatesAgree` | src/js/game/production_analytics.js:99-102 | for every key, the merged rates read the same count as `getCurrentShapeRate` (absent keys as 0) |
| `Ledger.FiveSliceScenario` | src/js/game/production_analytics.js:49-139 | with W = 5: after counting A×3 and B×1 and rotating, the current rates are A 3, B 1, C 0; after A×2 and another rotation, A is 2, the merged rates are exactly {A: 2, B: 0}, and offset 100 is refused |
| `UidKeys.DecimalRoundTrip` | src/js/game/production_analytics.js:72 | the key `uid.toString()` of a numeric uid is all digits and parses back to the uid |
| `UidKeys.DecimalStringInjective` | src/js/game/production_analytics.js:72 | different numeric uids are counted under different keys |
| `UidKeys.KeyOf` | src/js/game/production_analytics.js:72 | the key of a numeric uid is all digits and parses back to it; the key of a string uid is the string itself |

## Left out

- Subscribing the handlers to the game's signals is not modelled; the handlers are plain methods here.
- The `BasicSerializableObject` base class and saving or loading the history are not modelled.
- `root.time.now()` is modelled as one integer argument of `Update`, and the two calls to it read the same value. Floating-point seconds are not modelled.
- `hubGoals.storedShapes` is an argument of the constructor, `StartNewSlice` and `Update`. The hub goals that own it are not part of this model.
- `ShapeDefinition.getHash()` is modelled as an opaque string. The item kinds other than shapes are one case, `OtherItem`.
- `Analytics.ProductionAnalytics.OnItemDeliveredToStorage`: the handler documents `uid` as a number, but the statistics dialog (`src/js/game/hud/parts/statistics.js:190-198`) splits each `deliveredToStorage` key at "," into a uid and a shape key. A bare number's text has no ",", so the two disagree. The callers are not part of this model, so `uid` is either a natural number or text passed through unchanged. JavaScript's text for negative, fractional or very large (from 10^21) numbers is not modelled.
- The `|| 0` idiom is modelled as "absent reads as 0". Stored `NaN` or other non-numeric values are not modelled.
- The statistics dialog (`src/js/game/hud/parts/statistics.js`) is not part of this model. It is user interface: the dialog, its buttons and visibility observer, and the sort and top-200 cut it renders.
- Colour item rendering (`src/js/game/items/color_item.js`) is not part of this model.
