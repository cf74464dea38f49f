/**
  The state of the Home component and its handlers. The pure part (`State`,
  `Step`, `Run`) says what each handler does to the whole state; the class
  `Home` holds the same state in mutable fields and performs the handlers
  step by step, each method proved to end in the state `Step` describes.
 */
module HomeComponent {

  import opened Wrappers
  import opened Transforms
  import opened History

  /** The displayable data URL a successful read hands to the component. */
  type ImageRef = string

  /**
    A picked or dropped file, seen only through what reading it yields when
    the read ends: a data URL, or `None` (`reader.result` is `null`) when
    the read fails. The end-of-read callback runs in both cases.
   */
  datatype File = File(readResult: Option<ImageRef>)

  /** Every piece of state the handlers read or write. */
  datatype State = State(
    image: Option<ImageRef>,
    previewImage: Option<ImageRef>,
    transform: Transform,
    selectedTool: Option<Tool>,
    isTransforming: bool,
    isDown: bool,
    history: seq<Transform>,
    historyIndex: int)

  /** What a freshly mounted component holds. */
  function Init(): (r: State)
    ensures IndexInvariant(r) && r.history == []
    ensures r.transform == Identity && WellFormed(r.transform)
    ensures r.image.None? && r.previewImage.None?
    ensures r.selectedTool.None? && !r.isTransforming && r.isDown
  {
    State(None, None, Identity, None, false, true, [], -1)
  }

  /** The index points at the last history entry. */
  predicate IndexInvariant(s: State)
  {
    s.historyIndex == |s.history| - 1
  }

  /** The events that reach the component's state. */
  datatype Action =
    | Click(tool: Tool)             // a toolbar button
    | OpacityChange(value: int)     // the opacity slider
    | Upload(file: Option<File>)    // a picked or dropped file, once read
    | EndTransition                 // the timer after a toolbar transformation

  /** The actions that append to the history. */
  predicate Records(a: Action)
  {
    a.Click? || a.OpacityChange? || (a.Upload? && a.file.Some?)
  }

  /** The record a recording action appends to the history. */
  function Entry(s: State, a: Action): Transform
    requires Records(a)
  {
    match a
    case Click(tool) => NewTransform(tool, s.transform)
    case OpacityChange(v) => WithOpacity(s.transform, v)
    case Upload(_) => Identity
  }

  /** `addToHistory`: truncate after the index, push, move the index to the end. */
  function Record(s: State, t: Transform): (r: State)
    ensures IndexInvariant(r) && |r.history| > 0 && r.history[|r.history| - 1] == t
    ensures r.history[..|r.history| - 1] <= s.history
    ensures IndexInvariant(s) ==> r.history == s.history + [t]
  {
    var h := Recorded(s.history, s.historyIndex, t);
    s.(history := h, historyIndex := |h| - 1)
  }

  /** `applyTransformation`: raise the flag, set the record, and record it. */
  function Apply(s: State, t: Transform): (r: State)
    ensures r.transform == t && r.isTransforming
    ensures IndexInvariant(r) && |r.history| > 0 && r.history[|r.history| - 1] == t
    ensures IndexInvariant(s) ==> r.history == s.history + [t]
    ensures r.image == s.image && r.previewImage == s.previewImage
    ensures r.selectedTool == s.selectedTool && r.isDown == s.isDown
  {
    Record(s.(isTransforming := true, transform := t), t)
  }

  /** The effect of one action on the state. */
  function Step(s: State, a: Action): (r: State)
    ensures Records(a) ==> IndexInvariant(r) && |r.history| > 0 && r.history[|r.history| - 1] == Entry(s, a)
    ensures Records(a) && IndexInvariant(s) ==> r.history == s.history + [Entry(s, a)]
    ensures !Records(a) ==> r.history == s.history && r.historyIndex == s.historyIndex
    ensures IndexInvariant(s) ==> IndexInvariant(r)
    ensures a.Click? || a.OpacityChange? ==> r.transform == Entry(s, a)
    ensures a.Upload? || a.EndTransition? ==> r.transform == s.transform
  {
    match a
    case Click(tool) =>
      var applied := Apply(s, Entry(s, a));
      var toggled := if tool == RotateDown then applied.(isDown := !applied.isDown) else applied;
      toggled.(selectedTool := Some(tool))
    case OpacityChange(_) =>
      Record(s.(transform := Entry(s, a)), Entry(s, a))
    case Upload(file) =>
      if file.Some? then
        var result := file.value.readResult;
        Record(s.(image := result, previewImage := result), Entry(s, a))
      else
        s
    case EndTransition =>
      s.(isTransforming := false)
  }

  /** The state after the actions of `acts`, in order. */
  function Run(s: State, acts: seq<Action>): State
    decreases |acts|
  {
    if acts == [] then s else Step(Run(s, acts[..|acts| - 1]), acts[|acts| - 1])
  }

  /** The number of actions in `acts` that append to the history. */
  function RecordCount(acts: seq<Action>): nat
    decreases |acts|
  {
    if acts == [] then 0
    else RecordCount(acts[..|acts| - 1]) + (if Records(acts[|acts| - 1]) then 1 else 0)
  }

  /** The Home component, with its state held in fields that the handlers update. */
  class Home {
    var image: Option<ImageRef>
    var previewImage: Option<ImageRef>
    var transform: Transform
    var selectedTool: Option<Tool>
    var isTransforming: bool
    var isDown: bool
    var history: seq<Transform>
    var historyIndex: int

    /** The fields as one state value. */
    function Model(): State
      reads this
    {
      State(image, previewImage, transform, selectedTool, isTransforming, isDown, history, historyIndex)
    }

    /** The object invariant: the index points at the last history entry. */
    predicate Valid()
      reads this
    {
      IndexInvariant(Model())
    }

    /** Mounting: the initial values of every `useState` and `useRef`. */
    constructor ()
      ensures Model() == Init()
      ensures Valid()
      ensures transform == Identity && history == [] && historyIndex == -1
    {
      image, previewImage := None, None;
      transform := Identity;
      selectedTool := None;
      isTransforming := false;
      isDown := true;
      history, historyIndex := [], -1;
    }

    /** `addToHistory`, from any index: afterwards the index points at `t`, the last entry. */
    method AddToHistory(t: Transform)
      modifies this
      ensures history == Recorded(old(history), old(historyIndex), t)
      ensures historyIndex == |history| - 1 && history[historyIndex] == t
      ensures old(Valid()) ==> history == old(history) + [t]
      ensures Valid()
      ensures Model() == Record(old(Model()), t)
    {
      history := history[..SliceEnd(|history|, historyIndex + 1)];
      history := history + [t];
      historyIndex := |history| - 1;
    }

    /** `applyTransformation`: show `t`, record it, and disable the toolbar. */
    method ApplyTransformation(t: Transform)
      modifies this
      ensures transform == t && isTransforming
      ensures history == Recorded(old(history), old(historyIndex), t)
      ensures Valid()
      ensures Model() == Apply(old(Model()), t)
    {
      isTransforming := true;
      transform := t;
      AddToHistory(t);
    }

    /** `rotateLeft`. */
    method RotateLeft()
      requires Valid()
      modifies this
      ensures Valid()
      ensures transform == old(transform).(rotate := old(transform).rotate - 90)
      ensures history == old(history) + [transform]
      ensures selectedTool == Some(Tool.RotateLeft) && selectedTool.value.Id() == "rotate-left"
      ensures isTransforming && isDown == old(isDown)
      ensures Model() == Step(old(Model()), Click(Tool.RotateLeft))
    {
      var newTransform := RotatedLeft(transform);
      ApplyTransformation(newTransform);
      selectedTool := Some(Tool.RotateLeft);
    }

    /** `rotateRight`. */
    method RotateRight()
      requires Valid()
      modifies this
      ensures Valid()
      ensures transform == old(transform).(rotate := old(transform).rotate + 90)
      ensures history == old(history) + [transform]
      ensures selectedTool == Some(Tool.RotateRight) && selectedTool.value.Id() == "rotate-right"
      ensures isTransforming && isDown == old(isDown)
      ensures Model() == Step(old(Model()), Click(Tool.RotateRight))
    {
      var newTransform := RotatedRight(transform);
      ApplyTransformation(newTransform);
      selectedTool := Some(Tool.RotateRight);
    }

    /** `flipImage`: a horizontal flip only. */
    method FlipImage()
      requires Valid()
      modifies this
      ensures Valid()
      ensures transform.scaleX == (if old(transform).scaleX == 1 then -1 else 1)
      ensures transform.rotate == old(transform).rotate && transform.opacity == old(transform).opacity
      ensures history == old(history) + [transform]
      ensures selectedTool == Some(Tool.Flip) && selectedTool.value.Id() == "flip"
      ensures isTransforming && isDown == old(isDown)
      ensures Model() == Step(old(Model()), Click(Tool.Flip))
    {
      var newTransform := Flipped(transform);
      ApplyTransformation(newTransform);
      selectedTool := Some(Tool.Flip);
    }

    /** `resetImage`. */
    method ResetImage()
      requires Valid()
      modifies this
      ensures Valid()
      ensures transform == Transform(0, 1, 100)
      ensures history == old(history) + [Transform(0, 1, 100)]
      ensures selectedTool == Some(Tool.Reset) && selectedTool.value.Id() == "reset"
      ensures isTransforming && isDown == old(isDown)
      ensures Model() == Step(old(Model()), Click(Tool.Reset))
    {
      var newTransform := Identity;
      ApplyTransformation(newTransform);
      selectedTool := Some(Tool.Reset);
    }

    /** `handleOpacityChange`: no clamping, no toolbar flag, no tool tag. */
    method HandleOpacityChange(value: int)
      requires Valid()
      modifies this
      ensures Valid()
      ensures transform == old(transform).(opacity := value)
      ensures history == old(history) + [transform]
      ensures isTransforming == old(isTransforming) && selectedTool == old(selectedTool)
      ensures Model() == Step(old(Model()), OpacityChange(value))
    {
      var newTransform := WithOpacity(transform, value);
      transform := newTransform;
      AddToHistory(newTransform);
    }

    /**
      The `onloadend` callback: store what the read yielded (`None` when it
      failed) and record the identity record, whether or not the read succeeded.
     */
    method ImageLoaded(result: Option<ImageRef>)
      requires Valid()
      modifies this
      ensures Valid()
      ensures image == result && previewImage == result
      ensures transform == old(transform)
      ensures history == old(history) + [Identity]
      ensures Model() == Step(old(Model()), Upload(Some(File(result))))
    {
      image := result;
      previewImage := result;
      AddToHistory(Identity);
    }

    /** `handleImageUpload`: nothing without a file; otherwise the effect of the ended read. */
    method HandleImageUpload(file: Option<File>)
      requires Valid()
      modifies this
      ensures Valid()
      ensures file.None? ==> Model() == old(Model())
      ensures file.Some? ==> image == file.value.readResult && history == old(history) + [Identity]
      ensures transform == old(transform)
      ensures Model() == Step(old(Model()), Upload(file))
    {
      if file.Some? {
        ImageLoaded(file.value.readResult);
      }
    }

    /** `rotateDown`: a half turn, and the up/down label toggles. */
    method RotateDown()
      requires Valid()
      modifies this
      ensures Valid()
      ensures transform == old(transform).(rotate := old(transform).rotate + 180)
      ensures history == old(history) + [transform]
      ensures isDown == !old(isDown)
      ensures selectedTool == Some(Tool.RotateDown) && selectedTool.value.Id() == "rotate-down"
      ensures isTransforming
      ensures Model() == Step(old(Model()), Click(Tool.RotateDown))
    {
      var newTransform := RotatedDown(transform);
      ApplyTransformation(newTransform);
      isDown := !isDown;
      selectedTool := Some(Tool.RotateDown);
    }

    /** The timer callback that enables the toolbar again. */
    method EndTransition()
      modifies this
      ensures !isTransforming
      ensures Model() == old(Model()).(isTransforming := false)
      ensures Model() == Step(old(Model()), Action.EndTransition)
    {
      isTransforming := false;
    }
  }
}
