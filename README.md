# Home component transform state, in Dafny

This project models the state machine inside the `Home` component of the
image transformation app. The component shows an uploaded image with a CSS
transform built from one record: `rotate` in degrees, a horizontal scale
`scaleX`, and an `opacity` percent. It keeps several other pieces of state:

- the last tool used (`selectedTool`);
- a flag that disables the toolbar during a transition (`isTransforming`);
- the up/down label toggle (`isDown`);
- the uploaded image;
- a history of records (`history`) with an index (`historyIndex`).

Each toolbar handler computes a new record from the current one and passes
it to `applyTransformation`: rotate left, rotate right, rotate down (a half
turn), flip and reset. `applyTransformation` sets the record, records it in
the history and raises the flag. The opacity slider sets the record and
records it, but it leaves the flag alone. A finished upload stores the image
and records the identity record.

Files:

- `wrappers.dfy`: `Option`, standing for the nullable state.
- `transforms.dfy`: the `Transform` record, the `Tool` tags and their string
  ids, the pure new-record computations, and lemmas about them: inverses, the
  flip involution, reset being constant, orientation kept, and the visual
  period of 360 degrees.
- `history.dfy`: the history update. It keeps the entries up to the index,
  using JavaScript `slice` semantics, and pushes the new entry.
- `home.dfy`: the pure model (`State`, `Action`, `Step`, `Run`) and the class
  `Home`. The class holds the state in fields and has one method per handler.
  Each method states its effect on the fields. Each handler method also ends
  in the state `Step` gives for its event; `AddToHistory` and
  `ApplyTransformation` end in the states `Record` and `Apply` give.
- `home_properties.dfy`: lemmas about `Step` and `Run`:
  - the effect of each handler on the whole state;
  - left/right and flip/flip round trips;
  - repeated reset;
  - the behaviour of the transition flag;
  - invariants over every sequence of events: the index points at the last
    entry, the history only grows (by one per recording event), rotation stays
    a multiple of 90, the scale stays 1 or -1, and opacity stays in 0..100
    while slider values are in range.

Three behaviours of the code a reader might not expect:

- There is only a horizontal flip, tagged `"flip"`.
- An upload does not reset the current record. It stores the image and
  appends the identity record to the history; the record of the previous image
  stays in place.
- The history is not cleared on upload. It keeps growing.

A read that fails still ends in the end-of-read callback, with a `null`
result. The model keeps this: a `File` is seen through what its read yields,
and `None` clears the image while identity is still recorded.

## Model

| member | source | states |
|---|---|---|
| `Transforms.Tool.Id` | src/Pages/Home/Home/Home.jsx:55-105 | the tag each handler stores ("rotate-left", "rotate-right", "flip", "reset", "rotate-down") is one of the toolbar's button ids listed at lines 137-141 |
| `Transforms.ToolIdsDistinct` | src/Pages/Home/Home/Home.jsx:137-141 | different tools have different ids |
| `Transforms.OneButtonHighlighted` | src/Pages/Home/Home/Home.jsx:136-153 | with a tool's tag stored, exactly one toolbar button passes the highlight test `selectedTool === tool.id`: the one with that tool's id; with no tag stored, none does |
| `Transforms.RotatedLeft` | src/Pages/Home/Home/Home.jsx:53 | the shown angle moves a quarter turn counter-clockwise (by 270 modulo 360); scale and opacity are kept (exact -90 in `ToolDeltas`) |
| `Transforms.RotatedRight` | src/Pages/Home/Home/Home.jsx:60 | the shown angle moves a quarter turn clockwise; scale and opacity are kept (exact +90 in `ToolDeltas`) |
| `Transforms.RotatedDown` | src/Pages/Home/Home/Home.jsx:102 | the shown angle moves a half turn; scale and opacity are kept (exact +180 in `ToolDeltas`) |
| `Transforms.WithOpacity` | src/Pages/Home/Home/Home.jsx:82 | opacity becomes the slider value exactly, rotation and scale are kept, and the result is well formed exactly when the value is in 0..100 and the old record was oriented |
| `Transforms.NewTransform` | src/Pages/Home/Home/Home.jsx:52-106 | reset gives identity; every other tool keeps opacity; the rotations keep the scale; flip keeps the rotation (the exact records in `ToolDeltas`) |
| `Transforms.Flipped` | src/Pages/Home/Home/Home.jsx:67-71 | the flipped scale is always 1 or -1 and is -1 exactly when the old scale was 1; rotation and opacity are kept |
| `Transforms.ToolDeltas` | src/Pages/Home/Home/Home.jsx:52-106 | left subtracts exactly 90, right adds 90, down adds 180, and each keeps the other fields; flip keeps rotation and opacity; reset gives {0, 1, 100} |
| `Transforms.RotateLeftRightInverse` | src/Pages/Home/Home/Home.jsx:52-63 | left then right, and right then left, give the original record back |
| `Transforms.FlipTwice` | src/Pages/Home/Home/Home.jsx:67-71 | flipping twice restores the record if and only if its scale is 1 or -1 |
| `Transforms.ResetIsConstant` | src/Pages/Home/Home/Home.jsx:73-77 | reset gives the same identity record from any record; it is its own fixed point, and the identity is well formed |
| `Transforms.NewTransformOriented` | src/Pages/Home/Home/Home.jsx:52-106 | every tool keeps rotation a multiple of 90 and the scale at 1 or -1, and keeps the opacity except reset, which sets 100 |
| `Transforms.VisualAngle` | src/Pages/Home/Home/Home.jsx:217 | the angle shown on screen lies in 0..359 |
| `Transforms.VisualPeriod` | src/Pages/Home/Home/Home.jsx:52-106 | two half turns, or four quarter turns one way, leave the visual angle unchanged; one left turn looks like three right turns |
| `History.SliceEnd` | src/Pages/Home/Home/Home.jsx:39 | the cut point of `slice(0, end)` never passes the length, and is `end` itself when `end` lies within the array |
| `History.Recorded` | src/Pages/Home/Home/Home.jsx:38-42 | the new entry is last; what comes before it is a prefix of the old history; at any index from -1 up to the last that prefix is the first index+1 entries; at the last index nothing is dropped |
| `HomeComponent.Init` | src/Pages/Home/Home/Home.jsx:4-10 | the mounted state: the identity record {0, 1, 100} (well formed), no image and no preview, no tag, flag off, `isDown` true (line 100), empty history with index -1 (the invariant holds) |
| `HomeComponent.Apply` | src/Pages/Home/Home/Home.jsx:45-50 | the record becomes `t`, the flag is raised, `t` is the last history entry with the index on it and, under the invariant, the only one added; image, tag and label are kept |
| `HomeComponent.Record` | src/Pages/Home/Home/Home.jsx:38-42 | from any index, afterwards the index points at the new entry, which is last; when the index was at the end, the history is the old one plus the entry |
| `HomeComponent.Step` | src/Pages/Home/Home/Home.jsx:13-106 | a recording event appends exactly its record and leaves the index at the end; other events leave history and index alone; clicks and opacity changes make their record current; upload and the timer keep the current record |
| `HomeComponent.Home.constructor` | src/Pages/Home/Home/Home.jsx:4-10 | the initial state: identity record, no image, no tag, flag off, label "down", empty history, index -1 |
| `HomeComponent.Home.AddToHistory` | src/Pages/Home/Home/Home.jsx:38-42 | the history becomes the truncated old history plus `t`; the index points at `t`; under the invariant no entry is dropped |
| `HomeComponent.Home.ApplyTransformation` | src/Pages/Home/Home/Home.jsx:45-50 | the record becomes `t`, the flag is raised, and `t` is recorded |
| `HomeComponent.Home.RotateLeft` | src/Pages/Home/Home/Home.jsx:52-56 | rotation drops by 90, the new record is appended, the tag is "rotate-left", the flag is raised, and the rest is unchanged |
| `HomeComponent.Home.RotateRight` | src/Pages/Home/Home/Home.jsx:59-63 | rotation rises by 90, the new record is appended, the tag is "rotate-right", the flag is raised, and the rest is unchanged |
| `HomeComponent.Home.FlipImage` | src/Pages/Home/Home/Home.jsx:67-71 | a scale of 1 becomes -1 and any other becomes 1; rotation and opacity are kept; the new record is appended and the tag is "flip" |
| `HomeComponent.Home.ResetImage` | src/Pages/Home/Home/Home.jsx:73-77 | the record becomes {0, 1, 100} and is appended; the tag is "reset" |
| `HomeComponent.Home.HandleOpacityChange` | src/Pages/Home/Home/Home.jsx:81-85 | opacity becomes the value exactly, without clamping; the record is appended; the flag and the tag are unchanged |
| `HomeComponent.Home.ImageLoaded` | src/Pages/Home/Home/Home.jsx:16-21 | image and preview become what the read yielded (`None` after a failed read), identity is appended to the history either way, and the current record is not reset |
| `HomeComponent.Home.HandleImageUpload` | src/Pages/Home/Home/Home.jsx:13-24 | without a file nothing changes; with one, the image becomes the read's result and identity is appended; the current record is never reset |
| `HomeComponent.Home.RotateDown` | src/Pages/Home/Home/Home.jsx:99-106 | rotation rises by 180, the up/down label toggles, the new record is appended, and the tag is "rotate-down" |
| `HomeComponent.Home.EndTransition` | src/Pages/Home/Home/Home.jsx:49 | the timer callback clears the flag and changes nothing else |
| `HomeProperties.ClickEffect` | src/Pages/Home/Home/Home.jsx:45-106 | a click applies its tool's record, appends it, moves the index by one, tags the tool, raises the flag, toggles the label only for rotate-down, and keeps the image |
| `HomeProperties.RotateLeftRightRestores` | src/Pages/Home/Home/Home.jsx:52-63 | left then right (and right then left) restores the record, and records both intermediate records |
| `HomeProperties.FlipTwiceRestores` | src/Pages/Home/Home/Home.jsx:67-71 | two flips restore the record if and only if the scale was 1 or -1; both flips are recorded |
| `HomeProperties.ResetRepeats` | src/Pages/Home/Home/Home.jsx:73-77 | reset yields the identity record from any state; repeating it changes nothing except one more identical history entry |
| `HomeProperties.OpacityEffect` | src/Pages/Home/Home/Home.jsx:81-85 | the slider sets opacity to exactly `v`, keeps rotation and scale, appends the record, and leaves the flag, tag, label and image alone |
| `HomeProperties.UploadEffect` | src/Pages/Home/Home/Home.jsx:13-23 | no file changes nothing; a file stores the read's result (clearing the image after a failed read), appends identity and keeps the current record, tag, flag and label |
| `HomeProperties.TransitionFlag` | src/Pages/Home/Home/Home.jsx:45-50 | the flag is raised by every click, cleared by the timer, and unchanged by every other event |
| `HomeProperties.RecordedWellFormed` | src/Pages/Home/Home/Home.jsx:38-42 | recording a well-formed record keeps every history entry well formed |
| `HomeProperties.RunHistory` | src/Pages/Home/Home/Home.jsx:38-42 | over any event sequence the index stays at the last entry, the old history stays a prefix, and the history grows by one per recording event |
| `HomeProperties.ReachableHistory` | src/Pages/Home/Home/Home.jsx:9-10 | from mount on, the history holds exactly one entry per recording event, with the index on its last |
| `HomeProperties.StepWellFormed` | src/Pages/Home/Home/Home.jsx:13-106 | one event keeps the record oriented; with an in-range slider value it keeps the record and the history well formed |
| `HomeProperties.RunWellFormed` | src/Pages/Home/Home/Home.jsx:13-106 | any event sequence keeps the record oriented; with in-range slider values it keeps the record and every entry well formed |
| `HomeProperties.ReachableWellFormed` | src/Pages/Home/Home/Home.jsx:6-10 | from the initial record, rotation is always a multiple of 90 and the scale 1 or -1; with slider values in 0..100, opacity and every history entry stay in range |

## Left out

- Decoding with `FileReader` and the asynchronous `onloadend` callback: this is browser I/O. A `File` is given with what its read yields, a data URL or `None` for a failed read. The callback's effect is the synchronous `ImageLoaded`. The case where no file is given is modelled. A read that never ends, and a second upload whose read ends before the first one's, are not.
- Number precision: `rotate` and `scaleX` are JavaScript doubles in the source; `opacity` is a double, or a string after a slider change. Doubles are exact only up to 2^53, so `rotate` drifts after about 10^14 clicks in one direction. The model uses unbounded integers. `RotateLeftRightInverse` and the multiple-of-90 invariant rely on that exactness.
- The `setTimeout` that clears the flag after 300 ms: timers are not modelled. Its callback is the separate `EndTransition` event. Timers that overlap and fire in any order are any interleaving of `EndTransition` events in `Run`.
- Drag-and-drop handlers and `preventDefault`: DOM event plumbing. A drop reaches the model as `HandleImageUpload` with the first dropped file.
- `downloadImage`: it only builds and clicks a DOM anchor. It changes no state.
- Rendering: the JSX, the CSS strings and the toolbar construction. The disabled state of the buttons is left out too. The flag is modelled, but the fact that a disabled button ignores clicks is not: `Run` accepts clicks while the flag is set.
- React specifics: state batching and stale closures. Handlers are modelled as sequential updates on one object. `e.target.value` is a string in JavaScript; here the opacity is an integer, and `ReachableWellFormed` assumes it lies in the slider's 0..100 range.
- Undo/redo: the source has none. The index is only ever moved to the end.
