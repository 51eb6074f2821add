/** ProgressUpdater: a callable object that wraps a stage function of the
    diffeomorphic library, advances the shared progress, shows a label, and
    then forwards the call (run-gui.py). */
module Instrument {
  import opened Progress
  import opened Ui

  /** The attributes of the library that the Run handler reads or replaces:
      `DiffeoImage.__init__`, `DiffeoImage._getdiffeo`,
      `DiffeoImage._interpolate_image`, `DiffeoImageDir.save` and
      `DiffeoImageDir.__init__`. */
  datatype Attr = ImageInit | ImageGetDiffeo | ImageInterpolate | DirSave | DirInit

  /** The positional arguments of a call, passed through untouched. */
  type Args = seq<string>

  datatype PyError = FileNotFoundError | OtherError(name: string)

  /** A call either returns a value or raises. */
  datatype StageResult = Returned(value: string) | Raised(error: PyError)

  /** What the library's own function at each attribute does with its
      arguments; this code is not part of the model. */
  type Behaviour = (Attr, Args) -> StageResult

  /** A value held in a library attribute: the library's own function
      defined at an attribute, a ProgressUpdater wrapping another value, or
      what `ProgressUpdater.__get__` hands out when an updater is read
      through the class: `functools.partial(updater.__call__, None)`, an
      object with no `__wrapped__` of its own. */
  datatype Callable =
    | Original(fn: Attr)
    | Wrapped(wrapper: ProgressUpdater)
    | Bound(wrapper: ProgressUpdater)

  /** The number of wrapper layers around the original function. */
  function Depth(c: Callable): nat {
    match c
    case Original(_) => 0
    case Wrapped(u) => u.depth
    case Bound(u) => u.depth
  }

  /** Each layer sits exactly one level above the value it wraps. */
  predicate WellFormed(c: Callable)
    decreases Depth(c)
  {
    match c
    case Original(_) => true
    case Wrapped(u) => u.depth == Depth(u.func) + 1 && WellFormed(u.func)
    case Bound(u) => u.depth == Depth(u.func) + 1 && WellFormed(u.func)
  }

  /** Every layer is an updater itself, none a partial bound to one: a call
      through `c` reaches the library function with the arguments it was
      given. */
  predicate Direct(c: Callable)
    requires WellFormed(c)
    decreases Depth(c)
  {
    match c
    case Original(_) => true
    case Wrapped(u) => Direct(u.func)
    case Bound(_) => false
  }

  /** `inspect.unwrap`: follow `__wrapped__` (set by `functools.update_wrapper`)
      down to the object that has none: the library function, or a partial
      bound to an updater. */
  function Unwrap(c: Callable): (r: Callable)
    requires WellFormed(c)
    ensures !r.Wrapped?
    ensures r.Original? <==> Direct(c)
    ensures c.Original? ==> r == c
    decreases Depth(c)
  {
    match c
    case Original(_) => c
    case Wrapped(u) => Unwrap(u.func)
    case Bound(_) => c
  }

  /** Unwrapping a wrapper reaches what its inner value reaches. */
  lemma UnwrapThrough(u: ProgressUpdater)
    requires WellFormed(Wrapped(u))
    ensures Unwrap(Wrapped(u)) == Unwrap(u.func)
  {
  }

  /** The wrapper objects in a chain of layers. */
  ghost function Chain(c: Callable): (s: set<ProgressUpdater>)
    requires WellFormed(c)
    ensures forall v :: v in s ==> 1 <= v.depth <= Depth(c)
    ensures c.Original? ==> s == {}
    decreases Depth(c)
  {
    match c
    case Original(_) => {}
    case Wrapped(u) => {u} + Chain(u.func)
    case Bound(u) => {u} + Chain(u.func)
  }

  /** Every layer of the chain reports to the same counter and window. */
  ghost predicate Attached(c: Callable, counter: ProgressCounter, window: Window)
    requires WellFormed(c)
  {
    forall v :: v in Chain(c) ==> v.counter == counter && v.window == window
  }

  /** What one call through the chain adds to the shared progress. */
  ghost function Gain(c: Callable): int
    requires WellFormed(c)
    decreases Depth(c)
  {
    match c
    case Original(_) => 0
    case Wrapped(u) => u.incrementValue + Gain(u.func)
    case Bound(u) => u.incrementValue + Gain(u.func)
  }

  /** The class attribute `ProgressUpdater.current_progress`, shared by every
      wrapper. */
  class ProgressCounter {
    var current: int

    constructor ()
      ensures current == 0
    {
      current := 0;
    }
  }

  class ProgressUpdater {
    const func: Callable
    const window: Window
    const counter: ProgressCounter
    const labelText: string
    const runsEachFile: bool
    const incrementValue: int
    const depth: nat
    // Set and used only when the stage runs once per file.
    var fileCount: nat

    /** `ProgressUpdater.reset()`. */
    static method Reset(counter: ProgressCounter)
      modifies counter
      ensures counter.current == 0
    {
      counter.current := 0;
    }

    /** Wraps `func`; the bar and label keys are always the layout's
        "-PBAR-" and "-PBARLABEL-". */
    constructor (func: Callable, window: Window, counter: ProgressCounter, stageProgress: int,
                 numFiles: int, labelText: string, runsEachFile: bool := true)
      requires runsEachFile ==> numFiles >= 1
      ensures this.func == func && this.window == window && this.counter == counter
      ensures this.labelText == labelText && this.runsEachFile == runsEachFile
      ensures incrementValue == Increment(stageProgress, numFiles, runsEachFile)
      ensures runsEachFile ==> fileCount == 1
      ensures depth == Depth(func) + 1
      ensures WellFormed(func) ==> WellFormed(Wrapped(this)) && Unwrap(Wrapped(this)) == Unwrap(func)
      ensures WellFormed(func) ==> (Direct(Wrapped(this)) <==> Direct(func))
    {
      this.func := func;
      this.window := window;
      this.counter := counter;
      this.labelText := labelText;
      this.depth := Depth(func) + 1;
      if !runsEachFile {
        this.incrementValue := stageProgress;
        this.runsEachFile := false;
      } else {
        this.runsEachFile := true;
        this.fileCount := 1;
        this.incrementValue := stageProgress / numFiles;
      }
    }

    /** `__call__`: advance the shared progress, show it with the label,
        redraw, and forward the arguments unchanged; whatever the wrapped
        function returns or raises is passed on. */
    method Call(args: Args, behaviour: Behaviour) returns (r: StageResult)
      requires WellFormed(Wrapped(this)) && Direct(func) && Attached(func, counter, window)
      modifies this, counter, window`progress, window`caption, window`frames, Chain(func)
      decreases depth, 0
      ensures r == behaviour(Unwrap(func).fn, args)
      ensures counter.current == old(counter.current) + incrementValue + Gain(func)
      ensures fileCount == old(fileCount) + (if runsEachFile then 1 else 0)
      ensures forall v :: v in Chain(func) && old(allocated(v)) ==>
                v.fileCount == old(v.fileCount) + (if v.runsEachFile then 1 else 0)
      ensures window.progress == counter.current
      ensures |window.frames| == |old(window.frames)| + depth
      ensures window.frames[..|old(window.frames)|] == old(window.frames)
      ensures window.frames[|old(window.frames)|]
              == Frame(old(counter.current) + incrementValue,
                       DisplayLabel(runsEachFile, old(fileCount), labelText))
      ensures window.caption == window.frames[|window.frames| - 1].caption
    {
      counter.current := counter.current + incrementValue;
      window.UpdateBar(counter.current);
      var extended: string;
      if runsEachFile {
        extended := FileLabel(fileCount, labelText);
        fileCount := fileCount + 1;
      } else {
        extended := labelText;
      }
      window.UpdateCaption(extended);
      window.Refresh();
      ghost var shown := window.frames;
      r := Invoke(func, args, behaviour, counter, window);
      assert window.frames[|shown| - 1] == window.frames[..|shown|][|shown| - 1] == shown[|shown| - 1];
    }
  }

  /** Calling whatever an attribute holds: the library's own function, or a
      wrapper that reports progress and then calls the value it wraps. */
  method Invoke(c: Callable, args: Args, behaviour: Behaviour,
                ghost counter: ProgressCounter, ghost window: Window) returns (r: StageResult)
    requires WellFormed(c) && Direct(c) && Attached(c, counter, window)
    modifies Chain(c), counter, window`progress, window`caption, window`frames
    decreases Depth(c), 1
    ensures r == behaviour(Unwrap(c).fn, args)
    ensures counter.current == old(counter.current) + Gain(c)
    ensures forall v :: v in Chain(c) && old(allocated(v)) ==>
              v.fileCount == old(v.fileCount) + (if v.runsEachFile then 1 else 0)
    ensures |window.frames| == |old(window.frames)| + Depth(c)
    ensures window.frames[..|old(window.frames)|] == old(window.frames)
    ensures c.Original? ==> window.progress == old(window.progress)
                            && window.caption == old(window.caption)
    ensures c.Wrapped? ==> window.progress == counter.current
                           && window.caption == window.frames[|window.frames| - 1].caption
    ensures c.Wrapped? ==>
              window.frames[|old(window.frames)|]
              == Frame(old(counter.current) + c.wrapper.incrementValue,
                       DisplayLabel(c.wrapper.runsEachFile, old(c.wrapper.fileCount), c.wrapper.labelText))
  {
    match c
    case Original(fn) =>
      r := behaviour(fn, args);
    case Wrapped(u) =>
      r := u.Call(args, behaviour);
  }
}
