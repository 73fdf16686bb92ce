# timeline: the layout transform, modelled in Dafny

The timeline tool draws a strip along one edge of a video frame. The strip shows a
sequence of clip segments, each with a label and a duration. Before anything is drawn,
`transFormTimeLine` turns the user's configuration and the device pixel ratio into
absolute strip geometry. This project models that transform and proves what it computes:

- the corner points of the strip rectangle for each `position` (`top`, `bottom`, `left`,
  `right`, or anything else);
- the filter that drops segments whose `text` or `time` is undefined;
- the `totalTime` loop, which adds the durations of segments with a non-empty label;
- the optional reversal of the segment order;
- the scaling of six dimensions by the pixel ratio, with every other field copied.

Modules, one per file:

- `Types` (`types.dfy`) holds the data. `TimeLine` is a class whose fields the caller
  owns. `TimeLineInfo` is the derived layout value. An `undefined` label or duration is
  `None`. Numbers are exact `real`s, because the transform only adds, subtracts and multiplies them.
- `Segments` (`segments.dfy`) holds the filter `Retained`, the total `LabelledTime` and
  the loop `TotalTime` that computes it, and the reversal `Reversed`.
- `Geometry` (`geometry.dfy`) holds the corner switch `StripCorners`, the function
  `StripPoints` that specifies it, and lemmas per position.
- `Transform` (`transform.dfy`) holds `TransFormTimeLine` itself, which has a
  `modifies timeLine`videos` frame. The function overwrites the caller's segment list
  with the filtered list, and the frame keeps that side effect visible in the contract.
  The method's `ensures` clauses give every field of the result and the new `videos`
  field. The frame says that no other field changes.

Four behaviours of the transform are easy to miss:

- The transform is not pure. It writes the filtered list back into `timeLine.videos`.
  That stored list is never reversed, because only the copy made for the result is
  reversed.
- An unknown `position` raises no error. It yields a rectangle whose four corners are all
  at the origin.
- `totalTime` leaves out segments with an empty label. Such segments still stay in
  `videos`.
- For `bottom` and `right`, the bottom-right corner is the canvas size times the literal
  2, not times the ratio. `BottomStrip` and `RightStrip` prove the effect: that corner
  reaches the scaled canvas edge exactly when the ratio is at most 2.

## Model

| member | source | states |
|---|---|---|
| `Geometry.StripCorners` | src/utils/transFormTimeLine.ts:4-66 | the corner switch returns the strip corners for the position; they form an axis-aligned rectangle; an unrecognised position leaves all four corners at the origin |
| `Geometry.StripPoints` | src/utils/transFormTimeLine.ts:4-66 | for every position, including unknown ones, the four corners form an axis-aligned rectangle |
| `Geometry.Rectangle` | src/utils/transFormTimeLine.ts:55-66 | the corner record keeps the given top-left and bottom-right corners, and the other two corners complete an axis-aligned rectangle |
| `Geometry.TopStrip` | src/utils/transFormTimeLine.ts:8-18 | for every input, a top strip has corners (0, 0) and (`width * ratio`, `size * ratio`); when `0 <= ratio` and `0 <= size <= height` it also stays inside the scaled canvas height |
| `Geometry.LeftStrip` | src/utils/transFormTimeLine.ts:30-40 | for every input, a left strip has corners (0, 0) and (`size * ratio`, `height * ratio`); when `0 <= ratio` and `0 <= size <= width` it also stays inside the scaled canvas width |
| `Geometry.BottomStrip` | src/utils/transFormTimeLine.ts:19-29 | a bottom strip starts `size * ratio` above the scaled bottom; its far corner is `(2*width, 2*height)`, which reaches the scaled edge iff ratio <= 2; its top-left is above its bottom-right iff `(height - size) * ratio <= 2*height` |
| `Geometry.RightStrip` | src/utils/transFormTimeLine.ts:41-51 | the same for a right strip along the x axis |
| `Geometry.UnknownPosition` | src/utils/transFormTimeLine.ts:5-53 | a position other than top, bottom, left or right gives all four corners at the origin, with no error |
| `Geometry.NearStripScales` | src/utils/transFormTimeLine.ts:8-40 | for top and left strips, multiplying the ratio by k multiplies every corner by k |
| `Geometry.FarStripOverscan` | src/utils/transFormTimeLine.ts:19-51 | for bottom and right strips, the top-left corner scales with the ratio but the bottom-right corner does not depend on it |
| `Segments.Retained` | src/utils/transFormTimeLine.ts:69 | every segment the filter keeps has both text and time defined, and the list never grows |
| `Segments.RetainedCounts` | src/utils/transFormTimeLine.ts:69 | the filter keeps each segment with text and time defined exactly as many times as the input holds it, and keeps no other segment |
| `Segments.RetainedAppend` | src/utils/transFormTimeLine.ts:69 | filtering distributes over concatenation, so kept segments stay in their original relative order |
| `Segments.RetainedOfDefined` | src/utils/transFormTimeLine.ts:69 | a list whose segments are all defined passes the filter unchanged |
| `Segments.RetainedIdempotent` | src/utils/transFormTimeLine.ts:69 | filtering an already filtered list changes nothing, so calling the transform again on the same configuration drops nothing more |
| `Segments.RetainedReversed` | src/utils/transFormTimeLine.ts:69-82 | filtering then reversing gives the same list as reversing then filtering |
| `Segments.LabelledTime` | src/utils/transFormTimeLine.ts:67-75 | the front-to-back sum of the durations of segments with a non-empty label |
| `Segments.LabelledTimeNonNegative` | src/utils/transFormTimeLine.ts:67-75 | the total is non-negative when every duration is |
| `Segments.LabelledTimeUnlabelled` | src/utils/transFormTimeLine.ts:67-75 | the total is zero when no segment has a non-empty label, whatever the durations |
| `Segments.TotalTime` | src/utils/transFormTimeLine.ts:67-75 | the loop with `continue` computes exactly the sum of the durations of the segments with a non-empty label |
| `Segments.LabelledTimeAppend` | src/utils/transFormTimeLine.ts:70-75 | the total of a concatenation is the sum of the two totals |
| `Segments.LabelledTimeReversed` | src/utils/transFormTimeLine.ts:67-82 | the total does not depend on order, so it equals the sum over the reversed list too |
| `Segments.EmptyLabelAddsNothing` | src/utils/transFormTimeLine.ts:71-73 | inserting a segment with an empty label anywhere leaves the total unchanged |
| `Segments.Reversed` | src/utils/transFormTimeLine.ts:82 | the reversed list has the same length, and position i holds element `n-1-i` |
| `Segments.ReversedAppend` | src/utils/transFormTimeLine.ts:82 | reversing a concatenation reverses the order of the parts |
| `Segments.ReversedInvolutive` | src/utils/transFormTimeLine.ts:82 | reversing twice restores the original order |
| `Segments.ReversedPermutes` | src/utils/transFormTimeLine.ts:76-82 | reversal adds, drops and duplicates nothing (same multiset) |
| `Transform.Ordered` | src/utils/transFormTimeLine.ts:82 | the filtered list, reversed iff `reverse`: same length and same multiset, with element `n-1-i` (reversed) or `i` (not reversed) at position i |
| `Transform.TransFormTimeLine` | src/utils/transFormTimeLine.ts:3-90 | the caller's `videos` becomes the filtered, unreversed list and no other field of the caller changes; the result has the `StripPoints` corners, `videos` as the filtered list (reversed iff `reverse`) with the same elements, `totalTime` as the labelled sum of both the stored and the returned list, the six dimensions times the ratio, and every other field copied |
| `Transform.ReverseLaw` | src/utils/transFormTimeLine.ts:76-82 | the `reverse: true` list is exactly the reverse of the `reverse: false` list, and both have the same total |
| `Transform.DefaultCorners` | src/utils/transFormTimeLine.ts:19-29 | for the default 1920 by 1080 configuration with a 40-pixel bottom strip at ratio 1, the corners are (0, 1040) and (3840, 2160) |
| `Transform.DefaultFiltered` | src/pages/index.tsx:54-79 | all six default segments pass the filter |
| `Transform.DefaultTotal` | src/pages/index.tsx:54-79 | the six default segments total 320 seconds |
| `Transform.FilterExamples` | src/utils/transFormTimeLine.ts:69-75 | a segment without a label is dropped; a segment with an empty label is kept but adds 0 to the total |

## Left out

- The strip renderer (`TimeLineDrawer`): its source is not part of this model. Tick placement, text wrapping and canvas painting depend on canvas text measurement.
- Everything in `src/pages/index.tsx` except the default segment list: form state, debounced re-rendering, local storage, JSON import and export, canvas acquisition and PNG download are browser I/O.
- `getTime` in `src/pages/index.tsx`: it reads the form and builds `moment` dates through a foreign library.
- The screen-size table and the aspect-ratio guard in `src/pages/index.tsx`: UI data and a UI condition.
- The call sites in `src/pages/index.tsx` that pass no pixel ratio: the model takes the ratio as the explicit parameter the transform declares.
- `src/types` (the `TimeLine` declaration) is not part of this model. The class's fields are those of the default configuration in `src/pages/index.tsx`.
- A `text` or `time` that is `null` rather than `undefined`: only `undefined` is modelled, as `None`. The form's values go straight into the configuration (src/pages/index.tsx:235-241), so a cleared field can arrive as `null`. In the source such a segment passes the filter, because `null !== undefined`. A `null` text is then skipped by the `!text` test, and a `null` time adds 0 by coercion. The model does not capture this case.
- Floating-point rounding, `NaN` and infinities: numbers are exact reals.
- Segment labels of the default configuration are paraphrased in English. Only their non-emptiness matters to the transform.
