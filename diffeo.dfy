/** The diffeomorphic library as the progress layer sees it: a table of
    replaceable attributes, and `run_diffeomorph`, which calls them in a
    fixed pattern and may raise (run-gui.py). The library's own algorithms
    are not part of the model; what its functions do is a parameter. */
module Diffeo {
  import opened Progress
  import opened Ui
  import opened Instrument

  predicate Total<V>(m: map<Attr, V>) {
    forall a: Attr :: a in m
  }

  lemma TotalByCases<V>(m: map<Attr, V>)
    requires ImageInit in m && ImageGetDiffeo in m && ImageInterpolate in m
    requires DirSave in m && DirInit in m
    ensures Total(m)
  {
    forall a: Attr ensures a in m {
      match a
      case ImageInit =>
      case ImageGetDiffeo =>
      case ImageInterpolate =>
      case DirSave =>
      case DirInit =>
    }
  }

  /** Every attribute holding the function the library defines there. */
  function Pristine(): (m: map<Attr, Callable>)
    ensures Total(m) && forall a :: a in m ==> m[a] == Original(a)
  {
    var m := map[ImageInit := Original(ImageInit), ImageGetDiffeo := Original(ImageGetDiffeo),
                 ImageInterpolate := Original(ImageInterpolate), DirSave := Original(DirSave),
                 DirInit := Original(DirInit)];
    TotalByCases(m);
    m
  }

  /** The attributes of `DiffeoImage` and `DiffeoImageDir`, which the Run
      handler reassigns. */
  class Library {
    var slots: map<Attr, Callable>

    /** Every attribute is present and holds a well-formed value. */
    ghost predicate Valid()
      reads this
    {
      Total(slots) && forall a :: a in slots ==> WellFormed(slots[a])
    }

    constructor ()
      ensures Valid() && slots == Pristine()
    {
      slots := Pristine();
    }
  }

  /** The wrapper objects installed in a table. */
  ghost function Wrappers(slots: map<Attr, Callable>): set<ProgressUpdater> {
    set a | a in slots && slots[a].Wrapped? :: slots[a].wrapper
  }

  /** A table `run_diffeomorph` is specified for: every attribute at most one
      wrapper deep, no attribute holding a partial bound to an updater, and
      every wrapper reporting to `counter` and `window`. */
  ghost predicate Instrumentable(slots: map<Attr, Callable>, counter: ProgressCounter, window: Window) {
    && Total(slots)
    && (forall a :: a in slots ==>
          WellFormed(slots[a]) && Direct(slots[a]) && Depth(slots[a]) <= 1 && Attached(slots[a], counter, window))
  }

  /** One call the pipeline makes: through an attribute, with arguments. */
  datatype StageCall = StageCall(attr: Attr, args: Args)

  /** The three per-file stages, in order, for one input path. */
  function PerFile(path: string): seq<StageCall> {
    [StageCall(ImageInit, [path]), StageCall(ImageGetDiffeo, [path]),
     StageCall(ImageInterpolate, [path])]
  }

  function FileCalls(inputs: seq<string>): (calls: seq<StageCall>)
    ensures |calls| == 3 * |inputs|
    decreases |inputs|
  {
    if inputs == [] then [] else PerFile(inputs[0]) + FileCalls(inputs[1..])
  }

  /** The calls `run_diffeomorph` makes through the attributes: the batch
      object's constructor, the three per-file stages for each input, and
      one save for the batch. */
  function Trace(inputs: seq<string>, output: string): (calls: seq<StageCall>)
    ensures |calls| == 3 * |inputs| + 2
  {
    [StageCall(DirInit, inputs + [output])] + FileCalls(inputs) + [StageCall(DirSave, [output])]
  }

  /** What a call through an attribute amounts to: the library function it
      reaches, and, when the attribute is wrapped, what the wrapper reports. */
  datatype StageView =
    | Silent(root: Attr)
    | Reports(root: Attr, wrapper: ProgressUpdater, increment: int, labelText: string, perFile: bool)

  function View(c: Callable): (v: StageView)
    requires WellFormed(c) && Direct(c) && Depth(c) <= 1
    ensures v.root == Unwrap(c).fn
    ensures v.Reports? <==> c.Wrapped?
    ensures v.Reports? ==> v.wrapper == c.wrapper
  {
    match c
    case Original(a) => Silent(a)
    case Wrapped(u) => Reports(Unwrap(c).fn, u, u.incrementValue, u.labelText, u.runsEachFile)
  }

  function Views(slots: map<Attr, Callable>): (views: map<Attr, StageView>)
    requires forall a :: a in slots ==> WellFormed(slots[a]) && Direct(slots[a]) && Depth(slots[a]) <= 1
    ensures views.Keys == slots.Keys
  {
    map a | a in slots :: View(slots[a])
  }

  /** What one wrapper call put on screen, before its label is spelled out:
      the bar's value and the wrapper's label, with the file number it
      showed when the wrapper counts files. */
  datatype Shown = Numbered(progress: int, ordinal: nat, labelText: string)
                 | Plain(progress: int, labelText: string)

  /** The frame a call shows. */
  function Render(x: Shown): (f: Frame)
    ensures f.progress == x.progress
  {
    match x
    case Numbered(p, k, text) => Frame(p, FileLabel(k, text))
    case Plain(p, text) => Frame(p, text)
  }

  /** The frames a sequence of calls shows, one per call, in order. */
  function Rendered(xs: seq<Shown>): (fs: seq<Frame>)
    ensures |fs| == |xs|
    decreases |xs|
  {
    if xs == [] then [] else Rendered(xs[..|xs| - 1]) + [Render(xs[|xs| - 1])]
  }

  lemma RenderedSnoc(xs: seq<Shown>, x: Shown)
    ensures Rendered(xs + [x]) == Rendered(xs) + [Render(x)]
  {
    assert (xs + [x])[..|xs|] == xs;
  }

  /** Rendering frame by frame: the i-th frame shown is the rendering of the
      i-th call's record. */
  lemma {:induction false} RenderedAt(xs: seq<Shown>, i: nat)
    requires i < |xs|
    ensures Rendered(xs)[i] == Render(xs[i])
    decreases |xs|
  {
    if i < |xs| - 1 {
      RenderedAt(xs[..|xs| - 1], i);
    }
  }

  /** Rendering two runs of calls one after the other. */
  lemma {:induction false} RenderedAppend(a: seq<Shown>, b: seq<Shown>)
    ensures Rendered(a + b) == Rendered(a) + Rendered(b)
    decreases |b|
  {
    if b == [] {
      assert a + b == a;
    } else {
      var front := b[..|b| - 1];
      RenderedAppend(a, front);
      assert (a + b)[..|a + b| - 1] == a + front;
    }
  }

  /** The observable effect of the calls made so far: the shared progress,
      each wrapper's file counter, and what was shown. */
  datatype Sim = Sim(progress: int, ordinals: map<ProgressUpdater, nat>, frames: seq<Shown>)

  /** Every wrapper the table reports through has a file counter. */
  predicate Tracks(views: map<Attr, StageView>, ordinals: map<ProgressUpdater, nat>) {
    forall a :: a in views && views[a].Reports? ==> views[a].wrapper in ordinals
  }

  /** One call through an attribute that looks like `v`: a wrapper there
      adds its increment, counts the file and shows a frame. */
  function Advance(s: Sim, v: StageView): (t: Sim)
    requires v.Reports? ==> v.wrapper in s.ordinals
    ensures t.ordinals.Keys == s.ordinals.Keys
  {
    match v
    case Silent(_) => s
    case Reports(_, u, inc, text, perFile) =>
      var p := s.progress + inc;
      var k := s.ordinals[u];
      Sim(p, if perFile then s.ordinals[u := k + 1] else s.ordinals,
          s.frames + [if perFile then Numbered(p, k, text) else Plain(p, text)])
  }

  /** The effect of a sequence of calls, one step at a time. */
  function Replay(calls: seq<StageCall>, views: map<Attr, StageView>, s0: Sim): (s: Sim)
    requires Total(views) && Tracks(views, s0.ordinals)
    ensures s.ordinals.Keys == s0.ordinals.Keys && Tracks(views, s.ordinals)
    decreases |calls|
  {
    if calls == [] then s0
    else Advance(Replay(calls[..|calls| - 1], views, s0), views[calls[|calls| - 1].attr])
  }

  /** One call through a wrapper adds its increment to the shared
      progress and appends one frame showing the new value and the
      wrapper's label; per file, the frame carries the file number from
      before the call and the wrapper's count goes up by one. A call
      straight to a library function changes nothing. This spells out
      `Advance` clause by clause; what makes it a statement about the
      program is `CallWrapper`, which proves the heap-level
      `ProgressUpdater.Call` equal to one `Advance` step. */
  lemma AdvanceStep(s: Sim, v: StageView)
    requires v.Reports? ==> v.wrapper in s.ordinals
    ensures var t := Advance(s, v);
            && (v.Silent? ==> t == s)
            && (v.Reports? ==>
                  && t.progress == s.progress + v.increment
                  && t.frames[..|s.frames|] == s.frames && |t.frames| == |s.frames| + 1
                  && t.frames[|s.frames|].progress == t.progress
                  && t.frames[|s.frames|].labelText == v.labelText
                  && (t.frames[|s.frames|].Numbered? <==> v.perFile))
            && (v.Reports? && v.perFile ==>
                  && t.frames[|s.frames|].ordinal == s.ordinals[v.wrapper]
                  && t.ordinals == s.ordinals[v.wrapper := s.ordinals[v.wrapper] + 1])
            && (v.Reports? && !v.perFile ==> t.ordinals == s.ordinals)
  {
    if v.Reports? {
      assert Advance(s, v).frames[..|s.frames|] == s.frames;
    }
  }

  /** A run of calls only appends frames, at most one per call. */
  lemma {:induction false} ReplayFrames(calls: seq<StageCall>, views: map<Attr, StageView>, s0: Sim)
    requires Total(views) && Tracks(views, s0.ordinals)
    ensures var s := Replay(calls, views, s0);
            && |s0.frames| <= |s.frames| <= |s0.frames| + |calls|
            && s.frames[..|s0.frames|] == s0.frames
    decreases |calls|
  {
    if calls != [] {
      var prev := calls[..|calls| - 1];
      ReplayFrames(prev, views, s0);
      var p := Replay(prev, views, s0);
      AdvanceStep(p, views[calls[|calls| - 1].attr]);
      var s := Replay(calls, views, s0);
      assert s.frames[..|s0.frames|] == s.frames[..|p.frames|][..|s0.frames|];
    }
  }

  /** The shared progress after a run of calls is what the last frame
      showed, or where it started when no call showed one. */
  lemma {:induction false} ReplayProgress(calls: seq<StageCall>, views: map<Attr, StageView>, s0: Sim)
    requires Total(views) && Tracks(views, s0.ordinals) && s0.frames == []
    ensures var s := Replay(calls, views, s0);
            s.progress == if s.frames == [] then s0.progress else s.frames[|s.frames| - 1].progress
    decreases |calls|
  {
    if calls != [] {
      ReplayProgress(calls[..|calls| - 1], views, s0);
    }
  }

  function Raises(call: StageCall, views: map<Attr, StageView>, behaviour: Behaviour): bool
    requires Total(views)
  {
    behaviour(views[call.attr].root, call.args).Raised?
  }

  /** How many calls return normally before the first one that raises. */
  function Completed(calls: seq<StageCall>, views: map<Attr, StageView>, behaviour: Behaviour): (k: nat)
    requires Total(views)
    ensures k <= |calls|
    ensures forall i :: 0 <= i < k ==> !Raises(calls[i], views, behaviour)
    ensures k < |calls| ==> Raises(calls[k], views, behaviour)
  {
    if calls == [] then 0
    else if Raises(calls[0], views, behaviour) then 0
    else 1 + Completed(calls[1..], views, behaviour)
  }

  /** What the shared progress and the wrappers' counters are at the start. */
  ghost function Start(slots: map<Attr, Callable>, counter: ProgressCounter): (s: Sim)
    reads counter, Wrappers(slots)
    ensures s.ordinals.Keys == Wrappers(slots) && s.frames == []
  {
    Sim(counter.current, map u | u in Wrappers(slots) :: u.fileCount, [])
  }

  datatype PipelineResult = Finished | Failed(error: PyError)

  /** The heap agrees with `s`: the shared counter holds its progress, the
      window shows its frames after `frames0`, and every installed wrapper's
      file counter holds its ordinal. */
  ghost predicate Shows(counter: ProgressCounter, window: Window, frames0: seq<Frame>, s: Sim)
    reads counter, window, s.ordinals.Keys
  {
    && counter.current == s.progress
    && window.frames == frames0 + Rendered(s.frames)
    && forall u :: u in s.ordinals ==> u.fileCount == s.ordinals[u]
  }

  /** The bar and its label show the last of the frames drawn after the
      first `drawn`, or what they showed before (`p0`, `c0`) when no frame
      has been drawn since. */
  ghost predicate Displays(counter: ProgressCounter, window: Window, drawn: nat, p0: int, c0: string)
    reads counter`current, window`frames, window`progress, window`caption
  {
    if |window.frames| <= drawn then window.progress == p0 && window.caption == c0
    else window.progress == counter.current && window.caption == window.frames[|window.frames| - 1].caption
  }

  /** Shows and Displays together: the state of the window and the
      counters midway through a run. */
  ghost predicate Tracking(counter: ProgressCounter, window: Window, w0: seq<Frame>, s: Sim,
                           p0: int, c0: string)
    reads counter, window, s.ordinals.Keys
  {
    Shows(counter, window, w0, s) && Displays(counter, window, |w0|, p0, c0)
  }

  /** The result of a run of `calls` and how many calls it makes: all of
      them, or those up to and including the first that raises. */
  function Outcome(calls: seq<StageCall>, views: map<Attr, StageView>, behaviour: Behaviour)
    : (o: (PipelineResult, nat))
    requires Total(views)
    ensures o.1 <= |calls|
  {
    var k := Completed(calls, views, behaviour);
    if k == |calls| then (Finished, k)
    else (Failed(behaviour(views[calls[k].attr].root, calls[k].args).error), k + 1)
  }

  /** `run_diffeomorph(inputs, output_dir, ...)`: make the calls of the trace
      through the attributes, in order, until one raises; that error is
      raised on. The numeric and flag arguments only steer the library's own
      algorithms and are not modelled. `executed` counts the calls made. */
  method RunDiffeomorph(lib: Library, inputs: seq<string>, output: string, behaviour: Behaviour,
                        ghost counter: ProgressCounter, ghost window: Window)
    returns (r: PipelineResult, ghost executed: nat)
    requires Instrumentable(lib.slots, counter, window)
    modifies Wrappers(lib.slots), counter, window`progress, window`caption, window`frames
    ensures (r, executed) == Outcome(Trace(inputs, output), Views(lib.slots), behaviour)
    ensures Shows(counter, window, old(window.frames),
                  Replay(Trace(inputs, output)[..executed], Views(lib.slots),
                         old(Start(lib.slots, counter))))
    ensures Displays(counter, window, |old(window.frames)|, old(window.progress), old(window.caption))
  {
    r, executed := RunCalls(lib.slots, Trace(inputs, output), behaviour, counter, window, Views(lib.slots),
                            Start(lib.slots, counter), window.frames, window.progress, window.caption);
  }

  /** Makes `calls` through the table, in order, until one raises. */
  method RunCalls(slots: map<Attr, Callable>, calls: seq<StageCall>, behaviour: Behaviour,
                  ghost counter: ProgressCounter, ghost window: Window, ghost views: map<Attr, StageView>,
                  ghost s0: Sim, ghost w0: seq<Frame>, ghost p0: int, ghost c0: string)
    returns (r: PipelineResult, ghost executed: nat)
    requires Instrumentable(slots, counter, window)
    requires views == Views(slots) && s0 == Start(slots, counter)
    requires Tracking(counter, window, w0, s0, p0, c0)
    modifies Wrappers(slots), counter, window`progress, window`caption, window`frames
    ensures (r, executed) == Outcome(calls, views, behaviour)
    ensures Tracking(counter, window, w0, Replay(calls[..executed], views, s0), p0, c0)
  {
    assert calls[..0] == [];
    var j := 0;
    while j < |calls|
      invariant 0 <= j <= |calls|
      invariant j <= Completed(calls, views, behaviour)
      invariant Tracking(counter, window, w0, Replay(calls[..j], views, s0), p0, c0)
      modifies s0.ordinals.Keys, counter, window`progress, window`caption, window`frames
    {
      var res := CallAt(slots, calls, j, behaviour, counter, window, views, w0, s0, p0, c0);
      if res.Raised? {
        return Failed(res.error), j + 1;
      }
      j := j + 1;
    }
    OutcomeFinishes(calls, views, behaviour);
    assert calls[..|calls|] == calls;
    r, executed := Finished, |calls|;
  }

  /** The j-th call of a run, made through the table. */
  method CallAt(slots: map<Attr, Callable>, calls: seq<StageCall>, j: nat, behaviour: Behaviour,
                ghost counter: ProgressCounter, ghost window: Window, ghost views: map<Attr, StageView>,
                ghost w0: seq<Frame>, ghost s0: Sim, ghost p0: int, ghost c0: string)
    returns (res: StageResult)
    requires Instrumentable(slots, counter, window) && views == Views(slots) && j < |calls|
    requires s0.ordinals.Keys == Wrappers(slots)
    requires Tracking(counter, window, w0, Replay(calls[..j], views, s0), p0, c0)
    requires j <= Completed(calls, views, behaviour)
    modifies Wrappers(slots), counter, window`progress, window`caption, window`frames
    ensures res == behaviour(views[calls[j].attr].root, calls[j].args)
    ensures res.Raised? ==> Outcome(calls, views, behaviour) == (Failed(res.error), j + 1)
    ensures !res.Raised? ==> j + 1 <= Completed(calls, views, behaviour)
    ensures Tracking(counter, window, w0, Replay(calls[..j + 1], views, s0), p0, c0)
  {
    StepReplay(calls, j, views, s0);
    SlotFacts(slots, counter, window, calls[j].attr);
    res := CallThrough(slots[calls[j].attr], calls[j].args, behaviour, counter, window, w0,
                       Replay(calls[..j], views, s0), p0, c0);
    if res.Raised? {
      OutcomeFails(calls, views, behaviour, j);
    }
  }

  /** One call through an attribute holding `c`, as Advance describes it. */
  method CallThrough(c: Callable, args: Args, behaviour: Behaviour,
                     ghost counter: ProgressCounter, ghost window: Window,
                     ghost w0: seq<Frame>, ghost s: Sim, ghost p0: int, ghost c0: string)
    returns (res: StageResult)
    requires WellFormed(c) && Direct(c) && Depth(c) <= 1 && Attached(c, counter, window)
    requires Chain(c) <= s.ordinals.Keys
    requires Shows(counter, window, w0, s) && Displays(counter, window, |w0|, p0, c0)
    modifies Chain(c), counter, window`progress, window`caption, window`frames
    ensures res == behaviour(Unwrap(c).fn, args)
    ensures Shows(counter, window, w0, Advance(s, View(c)))
    ensures Displays(counter, window, |w0|, p0, c0)
  {
    if c.Wrapped? {
      assert Chain(c) == {c.wrapper};
      res := CallWrapper(c.wrapper, args, behaviour, counter, window, w0, s, p0, c0);
    } else {
      res := behaviour(c.fn, args);
    }
  }

  /** A call through an attribute holding one wrapper around a library
      function: the wrapper's frame is shown and its file counter moves. */
  method CallWrapper(u: ProgressUpdater, args: Args, behaviour: Behaviour,
                     ghost counter: ProgressCounter, ghost window: Window,
                     ghost w0: seq<Frame>, ghost s: Sim, ghost p0: int, ghost c0: string)
    returns (res: StageResult)
    requires WellFormed(Wrapped(u)) && u.func.Original? && u.counter == counter && u.window == window
    requires u in s.ordinals
    requires Shows(counter, window, w0, s)
    modifies u, counter, window`progress, window`caption, window`frames
    ensures res == behaviour(u.func.fn, args)
    ensures Shows(counter, window, w0, Advance(s, View(Wrapped(u))))
    ensures |window.frames| > |w0| && window.progress == counter.current
    ensures window.caption == window.frames[|window.frames| - 1].caption
  {
    ghost var before := window.frames;
    ghost var t := Advance(s, View(Wrapped(u)));
    ghost var x := if u.runsEachFile then Numbered(t.progress, s.ordinals[u], u.labelText)
                   else Plain(t.progress, u.labelText);
    assert t.frames == s.frames + [x];
    res := u.Call(args, behaviour);
    assert window.frames == before + [Render(x)] by {
      assert window.frames == before + [window.frames[|before|]];
    }
    RenderedSnoc(s.frames, x);
    forall v | v in t.ordinals ensures v.fileCount == t.ordinals[v] {
      if v != u {
        assert v.fileCount == old(v.fileCount);
      }
    }
  }

  /** What the table promises about the value in one attribute. */
  lemma SlotFacts(slots: map<Attr, Callable>, counter: ProgressCounter, window: Window, a: Attr)
    requires Instrumentable(slots, counter, window)
    ensures WellFormed(slots[a]) && Direct(slots[a]) && Depth(slots[a]) <= 1 && Attached(slots[a], counter, window)
    ensures Chain(slots[a]) <= Wrappers(slots)
    ensures Views(slots)[a] == View(slots[a])
  {
  }

  lemma StepReplay(calls: seq<StageCall>, j: nat, views: map<Attr, StageView>, s0: Sim)
    requires j < |calls| && Total(views) && Tracks(views, s0.ordinals)
    ensures Replay(calls[..j + 1], views, s0) == Advance(Replay(calls[..j], views, s0), views[calls[j].attr])
  {
    assert calls[..j + 1][..j] == calls[..j];
  }

  /** A run whose call j raises, after j calls that returned, fails with
      that call's error, having made j + 1 calls. */
  lemma OutcomeFails(calls: seq<StageCall>, views: map<Attr, StageView>, behaviour: Behaviour, j: nat)
    requires Total(views) && j < |calls| && j <= Completed(calls, views, behaviour)
    requires Raises(calls[j], views, behaviour)
    ensures Outcome(calls, views, behaviour)
            == (Failed(behaviour(views[calls[j].attr].root, calls[j].args).error), j + 1)
  {
  }

  /** A run none of whose calls raises finishes, having made them all. */
  lemma OutcomeFinishes(calls: seq<StageCall>, views: map<Attr, StageView>, behaviour: Behaviour)
    requires Total(views) && |calls| <= Completed(calls, views, behaviour)
    ensures Outcome(calls, views, behaviour) == (Finished, |calls|)
  {
  }
}
