/**
  What the handlers of the Home component promise, stated on the pure
  model: the effect of each handler on the whole state, the round trips
  between handlers, and the invariants every sequence of events keeps.
 */
module HomeProperties {

  import opened Wrappers
  import opened Transforms
  import opened History
  import opened HomeComponent

  /** A toolbar click applies the tool's record, records it, tags the tool and disables the toolbar. */
  lemma ClickEffect(s: State, tool: Tool)
    requires IndexInvariant(s)
    ensures var r := Step(s, Click(tool));
      && r.transform == NewTransform(tool, s.transform)
      && r.history == s.history + [r.transform]
      && r.historyIndex == s.historyIndex + 1
      && r.selectedTool == Some(tool)
      && r.isTransforming
      && r.isDown == (if tool == RotateDown then !s.isDown else s.isDown)
      && r.image == s.image && r.previewImage == s.previewImage
  {
  }

  /** Left then right, and right then left, restore the record and record both steps. */
  lemma RotateLeftRightRestores(s: State)
    requires IndexInvariant(s)
    ensures var r := Step(Step(s, Click(RotateLeft)), Click(RotateRight));
      r.transform == s.transform && r.history == s.history + [RotatedLeft(s.transform), s.transform]
    ensures var r := Step(Step(s, Click(RotateRight)), Click(RotateLeft));
      r.transform == s.transform && r.history == s.history + [RotatedRight(s.transform), s.transform]
  {
    RotateLeftRightInverse(s.transform);
  }

  /** Two flips restore a scale of 1 or -1, and only such a scale. */
  lemma FlipTwiceRestores(s: State)
    requires IndexInvariant(s)
    ensures var r := Step(Step(s, Click(Flip)), Click(Flip));
      && (r.transform == s.transform <==> (s.transform.scaleX == 1 || s.transform.scaleX == -1))
      && r.history == s.history + [Flipped(s.transform), Flipped(Flipped(s.transform))]
  {
    FlipTwice(s.transform);
  }

  /** Reset yields the identity record from any state; a second reset only appends another identity entry. */
  lemma ResetRepeats(s: State)
    requires IndexInvariant(s)
    ensures Step(s, Click(Reset)).transform == Transform(0, 1, 100)
    ensures var r1 := Step(s, Click(Reset));
      Step(r1, Click(Reset)) == r1.(history := r1.history + [Identity], historyIndex := r1.historyIndex + 1)
  {
  }

  /** The slider sets the opacity to exactly its value and touches neither the flag nor the tag. */
  lemma OpacityEffect(s: State, v: int)
    requires IndexInvariant(s)
    ensures var r := Step(s, OpacityChange(v));
      && r.transform.opacity == v
      && r.transform.rotate == s.transform.rotate && r.transform.scaleX == s.transform.scaleX
      && r.history == s.history + [r.transform]
      && r.isTransforming == s.isTransforming && r.selectedTool == s.selectedTool
      && r.isDown == s.isDown && r.image == s.image
  {
  }

  /**
    Upload without a file changes nothing. With one, the value the read
    yielded (`None` after a failed read) replaces the image, and identity is
    recorded in both cases; the record stays.
   */
  lemma UploadEffect(s: State, file: Option<File>)
    requires IndexInvariant(s)
    ensures file.None? ==> Step(s, Upload(file)) == s
    ensures file.Some? ==> var r := Step(s, Upload(file));
      && r.image == file.value.readResult && r.previewImage == file.value.readResult
      && r.transform == s.transform
      && r.history == s.history + [Identity]
      && r.selectedTool == s.selectedTool && r.isTransforming == s.isTransforming && r.isDown == s.isDown
  {
  }

  /** Toolbar clicks raise the transition flag, the timer clears it, and nothing else moves it. */
  lemma TransitionFlag(s: State, a: Action)
    ensures Step(s, a).isTransforming == (a.Click? || (s.isTransforming && !a.EndTransition?))
  {
  }

  /** Opacity values within the slider's range 0..100. */
  predicate SliderBounded(acts: seq<Action>)
  {
    forall i :: 0 <= i < |acts| && acts[i].OpacityChange? ==> 0 <= acts[i].value <= 100
  }

  /** Every record in the history is well formed. */
  predicate HistoryWellFormed(h: seq<Transform>)
  {
    forall i :: 0 <= i < |h| ==> WellFormed(h[i])
  }

  /**
    Over any sequence of events the index keeps pointing at the last entry,
    the old history stays a prefix (truncation drops nothing), and the
    history grows by one per recording event.
   */
  lemma {:induction false} RunHistory(s: State, acts: seq<Action>)
    requires IndexInvariant(s)
    ensures IndexInvariant(Run(s, acts))
    ensures s.history <= Run(s, acts).history
    ensures |Run(s, acts).history| == |s.history| + RecordCount(acts)
    decreases |acts|
  {
    if acts != [] {
      var prefix := acts[..|acts| - 1];
      RunHistory(s, prefix);
    }
  }

  /** From mount on, the history holds exactly one entry per recording event, and the index its last. */
  lemma ReachableHistory(acts: seq<Action>)
    ensures IndexInvariant(Run(Init(), acts))
    ensures |Run(Init(), acts).history| == RecordCount(acts)
    ensures Run(Init(), acts).historyIndex == RecordCount(acts) - 1
  {
    RunHistory(Init(), acts);
  }

  /** Recording a well-formed record keeps every history entry well formed. */
  lemma RecordedWellFormed(h: seq<Transform>, index: int, t: Transform)
    requires HistoryWellFormed(h) && WellFormed(t)
    ensures HistoryWellFormed(Recorded(h, index, t))
  {
    var r := Recorded(h, index, t);
    var kept := r[..|r| - 1];
    forall i | 0 <= i < |r|
      ensures WellFormed(r[i])
    {
      if i < |kept| {
        assert r[i] == kept[i] == h[i];
      }
    }
  }

  /** One event keeps the record oriented, and well formed with the history when the slider is in range. */
  lemma StepWellFormed(s: State, a: Action)
    requires Oriented(s.transform)
    ensures Oriented(Step(s, a).transform)
    ensures WellFormed(s.transform) && HistoryWellFormed(s.history)
        && (a.OpacityChange? ==> 0 <= a.value <= 100)
        ==> WellFormed(Step(s, a).transform) && HistoryWellFormed(Step(s, a).history)
  {
    match a
    case Click(tool) =>
      NewTransformOriented(tool, s.transform);
      if WellFormed(s.transform) && HistoryWellFormed(s.history) {
        RecordedWellFormed(s.history, s.historyIndex, NewTransform(tool, s.transform));
      }
    case OpacityChange(v) =>
      if HistoryWellFormed(s.history) && WellFormed(WithOpacity(s.transform, v)) {
        RecordedWellFormed(s.history, s.historyIndex, WithOpacity(s.transform, v));
      }
    case Upload(file) =>
      if file.Some? && HistoryWellFormed(s.history) {
        RecordedWellFormed(s.history, s.historyIndex, Identity);
      }
    case EndTransition =>
  }

  /**
    Over any sequence of events the rotation stays a multiple of 90 and
    the scale 1 or -1; with slider values in 0..100 the record and every
    history entry are well formed.
   */
  lemma {:induction false} RunWellFormed(s: State, acts: seq<Action>)
    requires Oriented(s.transform)
    ensures Oriented(Run(s, acts).transform)
    ensures WellFormed(s.transform) && HistoryWellFormed(s.history) && SliderBounded(acts)
        ==> WellFormed(Run(s, acts).transform) && HistoryWellFormed(Run(s, acts).history)
    decreases |acts|
  {
    if acts != [] {
      var prefix := acts[..|acts| - 1];
      assert SliderBounded(acts) ==> SliderBounded(prefix) by {
        if SliderBounded(acts) {
          forall i | 0 <= i < |prefix| && prefix[i].OpacityChange?
            ensures 0 <= prefix[i].value <= 100
          {
            assert prefix[i] == acts[i];
          }
        }
      }
      RunWellFormed(s, prefix);
      StepWellFormed(Run(s, prefix), acts[|acts| - 1]);
    }
  }

  /**
    From mount on, every reachable record has a rotation that is a multiple
    of 90 and a scale of 1 or -1; with the slider's values it and every
    history entry also have an opacity in 0..100.
   */
  lemma ReachableWellFormed(acts: seq<Action>)
    ensures Run(Init(), acts).transform.rotate % 90 == 0
    ensures Run(Init(), acts).transform.scaleX == 1 || Run(Init(), acts).transform.scaleX == -1
    ensures SliderBounded(acts) ==> WellFormed(Run(Init(), acts).transform) && HistoryWellFormed(Run(Init(), acts).history)
  {
    assert WellFormed(Init().transform) && HistoryWellFormed(Init().history);
    RunWellFormed(Init(), acts);
  }
}
