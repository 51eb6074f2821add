/** The handler of the Run button (run-gui.py): it validates the two path
    fields, wraps the four stage attributes of the library in
    ProgressUpdaters, runs the pipeline, reports the outcome in the window,
    and in every case hides the bar, unwraps the attributes and resets the
    shared progress. Also the handler of the two digit-only fields. */
module RunHandler {
  import opened Text
  import opened Progress
  import opened Fields
  import opened Ui
  import opened Instrument
  import opened Diffeo
  import opened Stages

  const DONE_LABEL: string := "Diffeomorphing complete!"
  const NOT_FOUND: string := "ERROR: One or more files not found"
  const ERROR_COLOR: string := "red"
  /** The key the missing-file branch clears; the layout defines "-OUTPUT-". */
  const OUTPUTS_KEY: string := "-OUTPUTS-"

  /* ---------------------------------------------------------------------
     The attribute table before and after a run
     --------------------------------------------------------------------- */

  /** Every attribute holds a library function and no wrapper. */
  predicate Unwrapped(slots: map<Attr, Callable>) {
    Total(slots) && forall a :: a in slots ==> slots[a].Original?
  }

  /** The four wrapped attributes, each with all wrapper layers taken off
      the value stored in the class (the updater itself, as `vars(cls)`
      holds it). This is what the finally block evidently means to do:
      unwrap the functions for the next run so that a wrapper is never
      wrapped again. */
  function Restored(slots: map<Attr, Callable>): (r: map<Attr, Callable>)
    requires forall a :: a in slots ==> WellFormed(slots[a])
    ensures r.Keys == slots.Keys
    ensures forall a :: a in r && Instrumented(a) ==>
              !r[a].Wrapped? && (r[a].Original? <==> Direct(slots[a]))
  {
    map a | a in slots :: if Instrumented(a) then Unwrap(slots[a]) else slots[a]
  }

  /** Reading an attribute through the class (`DiffeoImage._getdiffeo`):
      an updater stored there is a descriptor, so the read goes through
      `ProgressUpdater.__get__` with no instance and yields a partial bound
      to the updater; any other value is read as stored. */
  function ClassRead(c: Callable): (r: Callable)
    ensures c.Wrapped? ==> r == Bound(c.wrapper)
    ensures !c.Wrapped? ==> r == c
    ensures WellFormed(c) ==> WellFormed(r) && Chain(r) == Chain(c)
  {
    if c.Wrapped? then Bound(c.wrapper) else c
  }

  /** What the finally block actually writes back: each attribute is read
      through the class and unwrapped, `DiffeoImage.__init__` from
      `DiffeoImageDir.__init__`, the other three from their own
      attribute. */
  function RestoredAsWritten(slots: map<Attr, Callable>): (r: map<Attr, Callable>)
    requires Total(slots) && forall a :: a in slots ==> WellFormed(slots[a])
    ensures r.Keys == slots.Keys
  {
    slots[ImageInit := Unwrap(ClassRead(slots[DirInit]))]
         [ImageGetDiffeo := Unwrap(ClassRead(slots[ImageGetDiffeo]))]
         [ImageInterpolate := Unwrap(ClassRead(slots[ImageInterpolate]))]
         [DirSave := Unwrap(ClassRead(slots[DirSave]))]
  }

  /** The table the finally block as written leaves after a run that
      wrapped the three per-run attributes of `before`: the per-image
      constructor's attribute holds the batch constructor, and each of the
      other three holds a partial bound to the updater around its old
      function. */
  predicate LeftAsWritten(after: map<Attr, Callable>, before: map<Attr, Callable>)
    requires Total(before)
  {
    && after.Keys == before.Keys
    && after[ImageInit] == before[DirInit]
    && after[DirInit] == before[DirInit]
    && forall a :: Instrumented(a) && a != ImageInit ==>
         after[a].Bound? && after[a].wrapper.func == before[a]
  }

  /** `installed` is the unwrapped table `before` with the four stage
      attributes wrapped, any number of layers deep, around the value that
      was there, and the batch constructor left alone. */
  predicate WrapsOf(installed: map<Attr, Callable>, before: map<Attr, Callable>) {
    && installed.Keys == before.Keys
    && (forall a :: a in installed ==> WellFormed(installed[a]))
    && (forall a :: a in before ==> before[a].Original? && Unwrap(installed[a]) == before[a])
    && (DirInit in before ==> installed[DirInit] == before[DirInit])
  }

  /** Taking every layer off gives back exactly the table before the
      wrappers were installed, whatever they were: a run's install and
      restore leave no wrapper behind and cannot stack wrappers run after
      run. */
  lemma RestoredUndoesInstall(installed: map<Attr, Callable>, before: map<Attr, Callable>)
    requires WrapsOf(installed, before)
    ensures Restored(installed) == before
  {
  }

  /** The finally block as written puts the batch constructor into the
      per-image constructor's attribute, and leaves each other wrapped
      attribute holding a partial bound to its outermost updater. */
  lemma AsWrittenKeepsWrappers(installed: map<Attr, Callable>, before: map<Attr, Callable>)
    requires Total(before) && WrapsOf(installed, before)
    ensures var r := RestoredAsWritten(installed);
            && r[ImageInit] == before[DirInit] && r[DirInit] == before[DirInit]
            && (forall a :: Instrumented(a) && a != ImageInit && installed[a].Wrapped? ==>
                  r[a] == Bound(installed[a].wrapper))
            && (forall a :: Instrumented(a) && a != ImageInit && !installed[a].Wrapped? ==>
                  r[a] == before[a])
  {
    var r := RestoredAsWritten(installed);
    assert installed[DirInit] == before[DirInit];
    assert r[ImageInit] == Unwrap(ClassRead(before[DirInit]));
    forall a | Instrumented(a) && a != ImageInit
      ensures installed[a].Wrapped? ==> r[a] == Bound(installed[a].wrapper)
      ensures !installed[a].Wrapped? ==> r[a] == before[a]
    {
      AsWrittenSlot(installed, before, a);
    }
  }

  /** The table the finally block as written leaves is unwrapped exactly
      when none of the three attributes it reads back from their own slots
      was wrapped. */
  lemma AsWrittenUnwrapped(installed: map<Attr, Callable>, before: map<Attr, Callable>)
    requires Total(before) && WrapsOf(installed, before)
    ensures Unwrapped(RestoredAsWritten(installed)) <==>
            forall a :: Instrumented(a) && a != ImageInit ==> !installed[a].Wrapped?
  {
    var r := RestoredAsWritten(installed);
    if forall a :: Instrumented(a) && a != ImageInit ==> !installed[a].Wrapped? {
      forall a | a in r ensures r[a].Original? {
        if a == ImageInit || a == DirInit {
          AsWrittenKeepsWrappers(installed, before);
        } else {
          AsWrittenSlot(installed, before, a);
        }
      }
    } else {
      var a :| Instrumented(a) && a != ImageInit && installed[a].Wrapped?;
      AsWrittenSlot(installed, before, a);
      assert !r[a].Original?;
    }
  }

  /** One of the three attributes the finally block as written reads back
      from its own slot. */
  lemma AsWrittenSlot(installed: map<Attr, Callable>, before: map<Attr, Callable>, a: Attr)
    requires Total(before) && WrapsOf(installed, before)
    requires Instrumented(a) && a != ImageInit
    ensures RestoredAsWritten(installed)[a] ==
            if installed[a].Wrapped? then Bound(installed[a].wrapper) else before[a]
  {
    var c := installed[a];
    assert Unwrap(c) == before[a];
    match a
    case ImageGetDiffeo =>
    case ImageInterpolate =>
    case DirSave =>
  }

  /** Each of the four stage attributes of `installed` holds an updater
      whose wrapped value is what `before` held there. */
  predicate WrappedOver(installed: map<Attr, Callable>, before: map<Attr, Callable>)
    requires Total(installed) && Total(before)
  {
    forall a :: Instrumented(a) ==> installed[a].Wrapped? && installed[a].wrapper.func == before[a]
  }

  /** One run from a table the Run handler wrapped: the finally block as
      written leaves the table LeftAsWritten describes. */
  lemma AsWrittenAfterRun(installed: map<Attr, Callable>, before: map<Attr, Callable>)
    requires Total(before) && WrapsOf(installed, before)
    requires WrappedOver(installed, before)
    ensures LeftAsWritten(RestoredAsWritten(installed), before)
    ensures !Unwrapped(RestoredAsWritten(installed))
  {
    AsWrittenKeepsWrappers(installed, before);
    AsWrittenUnwrapped(installed, before);
  }

  /** From the library's own table, one run leaves `DiffeoImage.__init__`
      holding `DiffeoImageDir.__init__`: the restore as written does not
      give back what was there. */
  lemma AsWrittenLosesImageInit(installed: map<Attr, Callable>)
    requires WrapsOf(installed, Pristine())
    ensures RestoredAsWritten(installed)[ImageInit] == Original(DirInit)
    ensures RestoredAsWritten(installed) != Pristine()
  {
    AsWrittenKeepsWrappers(installed, Pristine());
    assert RestoredAsWritten(installed)[ImageInit] != Pristine()[ImageInit];
  }

  /* ---------------------------------------------------------------------
     Install and restore
     --------------------------------------------------------------------- */

  /** `c` is a fresh-looking ProgressUpdater around `inner` as the Run
      handler builds it for an attribute planned as `plan` in a run of
      `numFiles` files. */
  ghost predicate Installed(c: Callable, inner: Callable, plan: Plan, numFiles: int,
                            counter: ProgressCounter, window: Window)
    requires plan.runsEachFile ==> numFiles >= 1
    reads if c.Wrapped? then {c.wrapper} else {}
  {
    && c.Wrapped?
    && c.wrapper.func == inner && c.wrapper.depth == Depth(inner) + 1
    && c.wrapper.counter == counter && c.wrapper.window == window
    && c.wrapper.incrementValue == Increment(plan.weight, numFiles, plan.runsEachFile)
    && c.wrapper.labelText == plan.labelText
    && c.wrapper.runsEachFile == plan.runsEachFile
    && (plan.runsEachFile ==> c.wrapper.fileCount == 1)
  }

  /** Wraps the four stage attributes for a run of `numFiles` files: the
      per-image constructor (weight 5), the flow field (25) and the
      interpolation (65) per file, and the batch save (5) once. */
  method Install(lib: Library, window: Window, counter: ProgressCounter, numFiles: int)
    requires numFiles >= 1 && Unwrapped(lib.slots)
    modifies lib
    ensures lib.slots.Keys == old(lib.slots).Keys
    ensures lib.slots[DirInit] == old(lib.slots[DirInit])
    ensures forall a :: Instrumented(a) ==>
              Installed(lib.slots[a], old(lib.slots[a]), PlanOf(a), numFiles, counter, window)
              && fresh(lib.slots[a].wrapper)
    ensures lib.slots[ImageInit].Wrapped? && lib.slots[ImageGetDiffeo].Wrapped?
            && lib.slots[ImageInterpolate].Wrapped?
    ensures lib.slots[ImageInit].wrapper != lib.slots[ImageGetDiffeo].wrapper
    ensures lib.slots[ImageInit].wrapper != lib.slots[ImageInterpolate].wrapper
    ensures lib.slots[ImageGetDiffeo].wrapper != lib.slots[ImageInterpolate].wrapper
  {
    var init := new ProgressUpdater(lib.slots[ImageInit], window, counter, INIT_WEIGHT,
                                    numFiles, INIT_LABEL);
    lib.slots := lib.slots[ImageInit := Wrapped(init)];
    var diffeo := new ProgressUpdater(lib.slots[ImageGetDiffeo], window, counter, DIFFEO_WEIGHT,
                                      numFiles, DIFFEO_LABEL);
    lib.slots := lib.slots[ImageGetDiffeo := Wrapped(diffeo)];
    var interpolate := new ProgressUpdater(lib.slots[ImageInterpolate], window, counter,
                                           INTERPOLATE_WEIGHT, numFiles, INTERPOLATE_LABEL);
    lib.slots := lib.slots[ImageInterpolate := Wrapped(interpolate)];
    var save := new ProgressUpdater(lib.slots[DirSave], window, counter, SAVE_WEIGHT,
                                    numFiles, SAVE_LABEL, false);
    lib.slots := lib.slots[DirSave := Wrapped(save)];
  }

  /** The finally block's four reassignments, as written. */
  method RestoreAsWritten(lib: Library)
    requires lib.Valid()
    modifies lib
    ensures lib.slots == RestoredAsWritten(old(lib.slots))
  {
    lib.slots := lib.slots[ImageInit := Unwrap(ClassRead(lib.slots[DirInit]))];
    lib.slots := lib.slots[ImageGetDiffeo := Unwrap(ClassRead(lib.slots[ImageGetDiffeo]))];
    lib.slots := lib.slots[ImageInterpolate := Unwrap(ClassRead(lib.slots[ImageInterpolate]))];
    lib.slots := lib.slots[DirSave := Unwrap(ClassRead(lib.slots[DirSave]))];
  }

  /** The finally block's reassignments as evidently intended: every
      attribute from its own unwrapped value. */
  method Restore(lib: Library)
    requires lib.Valid()
    modifies lib
    ensures lib.slots == Restored(old(lib.slots))
  {
    lib.slots := lib.slots[ImageInit := Unwrap(lib.slots[ImageInit])];
    lib.slots := lib.slots[ImageGetDiffeo := Unwrap(lib.slots[ImageGetDiffeo])];
    lib.slots := lib.slots[ImageInterpolate := Unwrap(lib.slots[ImageInterpolate])];
    lib.slots := lib.slots[DirSave := Unwrap(lib.slots[DirSave])];
    assert lib.slots == Restored(old(lib.slots)) by {
      forall a | a in lib.slots
        ensures lib.slots[a] == if Instrumented(a) then Unwrap(old(lib.slots)[a]) else old(lib.slots)[a]
      {
        match a
        case ImageInit =>
        case ImageGetDiffeo =>
        case ImageInterpolate =>
        case DirSave =>
        case DirInit =>
      }
    }
  }

  /** What Install leaves behind: a table `run_diffeomorph` can run through,
      wrapping the table before it, with the stage weights and labels of a
      run of n files and every per-file wrapper at file number 1. Each
      attribute still reaches the library function it held before. */
  lemma InstalledTable(slots: map<Attr, Callable>, before: map<Attr, Callable>, n: int,
                       counter: ProgressCounter, window: Window)
    requires n >= 1 && Unwrapped(before)
    requires slots.Keys == before.Keys && slots[DirInit] == before[DirInit]
    requires forall a :: Instrumented(a) ==> Installed(slots[a], before[a], PlanOf(a), n, counter, window)
    requires slots[ImageInit].Wrapped? && slots[ImageGetDiffeo].Wrapped? && slots[ImageInterpolate].Wrapped?
    requires slots[ImageInit].wrapper != slots[ImageGetDiffeo].wrapper
    requires slots[ImageInit].wrapper != slots[ImageInterpolate].wrapper
    requires slots[ImageGetDiffeo].wrapper != slots[ImageInterpolate].wrapper
    ensures Instrumentable(slots, counter, window)
    ensures WrapsOf(slots, before)
    ensures Configured(Views(slots), n)
    ensures CountersAt(Views(slots), Start(slots, counter).ordinals, 1)
    ensures forall a :: a in slots ==> Views(slots)[a].root == before[a].fn
  {
    forall a | a in slots
      ensures WellFormed(slots[a]) && Direct(slots[a]) && Depth(slots[a]) <= 1 && Attached(slots[a], counter, window)
      ensures Unwrap(slots[a]) == before[a]
    {
      if Instrumented(a) {
        var u := slots[a].wrapper;
        assert Chain(slots[a]) == {u};
      }
    }
  }

  /* ---------------------------------------------------------------------
     The pipeline seen through the wrappers
     --------------------------------------------------------------------- */

  /** Whether a call raises, and what, depends only on the library function
      an attribute reaches, not on the wrappers around it. */
  lemma {:induction false} CompletedByRoots(calls: seq<StageCall>, v: map<Attr, StageView>,
                                            w: map<Attr, StageView>, behaviour: Behaviour)
    requires Total(v) && Total(w) && forall a :: v[a].root == w[a].root
    ensures Completed(calls, v, behaviour) == Completed(calls, w, behaviour)
    decreases |calls|
  {
    if calls != [] {
      CompletedByRoots(calls[1..], v, w, behaviour);
    }
  }

  /** A run through the instrumented table ends as the same run through the
      bare table would, after the same number of calls. */
  lemma OutcomeByRoots(calls: seq<StageCall>, v: map<Attr, StageView>,
                       w: map<Attr, StageView>, behaviour: Behaviour)
    requires Total(v) && Total(w) && forall a :: v[a].root == w[a].root
    ensures Outcome(calls, v, behaviour) == Outcome(calls, w, behaviour)
  {
    CompletedByRoots(calls, v, w, behaviour);
  }

  lemma RenderedPrefix(xs: seq<Shown>, ys: seq<Shown>)
    requires xs <= ys
    ensures Rendered(xs) <= Rendered(ys)
  {
    assert ys == xs + ys[|xs|..];
    RenderedAppend(xs, ys[|xs|..]);
  }

  /** What a run of the trace through the Run handler's table shows, from
      the table's starting state: all the frames of a complete run when it
      finishes, and the first part of them when a call raises. */
  lemma RunShown(inputs: seq<string>, output: string, views: map<Attr, StageView>, s0: Sim,
                 behaviour: Behaviour)
    requires |inputs| >= 1 && Configured(views, |inputs|) && CountersAt(views, s0.ordinals, 1)
    requires s0.frames == []
    ensures var (r, k) := Outcome(Trace(inputs, output), views, behaviour);
            var shown := Replay(Trace(inputs, output)[..k], views, s0).frames;
            var whole := RunFrames(Planned(|inputs|), SAVE_WEIGHT, s0.progress, |inputs|);
            && shown <= whole
            && (r == Finished ==> shown == whole)
  {
    var calls := Trace(inputs, output);
    var k := Outcome(calls, views, behaviour).1;
    forall a | a in views && views[a].Reports? ensures views[a].increment >= 0 {
      match a
      case ImageInit =>
      case ImageGetDiffeo =>
      case ImageInterpolate =>
      case DirSave =>
      case DirInit =>
    }
    CompleteRun(inputs, output, views, s0);
    ReplayPrefix(calls, k, views, s0);
    assert calls[..|calls|] == calls;
  }

  /** RunShown for the window: a run that reaches `executed` calls through
      the instrumented table has put on screen the frames of a complete run,
      all of them when the bare table's run finishes, and has left the
      shared progress between its start and the configured total above it;
      a finished run leaves it at that total, shown with the save label. */
  lemma RunOnScreen(inputs: seq<string>, output: string, views: map<Attr, StageView>,
                    bare: map<Attr, StageView>, s0: Sim, behaviour: Behaviour, executed: nat,
                    w0: seq<Frame>, frames: seq<Frame>, progress: int)
    requires |inputs| >= 1 && Configured(views, |inputs|) && CountersAt(views, s0.ordinals, 1)
    requires s0.frames == []
    requires Total(bare) && forall a :: a in views ==> views[a].root == bare[a].root
    requires executed == Outcome(Trace(inputs, output), views, behaviour).1
    requires frames == w0 + Rendered(Replay(Trace(inputs, output)[..executed], views, s0).frames)
    requires progress == Replay(Trace(inputs, output)[..executed], views, s0).progress
    ensures Outcome(Trace(inputs, output), views, behaviour).0
            == Outcome(Trace(inputs, output), bare, behaviour).0
    ensures var whole := RunFrames(Planned(|inputs|), SAVE_WEIGHT, s0.progress, |inputs|);
            && frames <= w0 + Rendered(whole)
            && (Outcome(Trace(inputs, output), bare, behaviour).0 == Finished ==>
                  frames == w0 + Rendered(whole))
    ensures s0.progress <= progress <= s0.progress + ConfiguredTotal(|inputs|)
    ensures Outcome(Trace(inputs, output), bare, behaviour).0 == Finished ==>
              && progress == s0.progress + ConfiguredTotal(|inputs|)
              && |frames| > |w0| && frames[|frames| - 1] == Frame(progress, SAVE_LABEL)
  {
    var n := |inputs|;
    OutcomeByRoots(Trace(inputs, output), views, bare, behaviour);
    RunShown(inputs, output, views, s0, behaviour);
    RunProgress(inputs, output, views, s0, behaviour);
    var whole := RunFrames(Planned(n), SAVE_WEIGHT, s0.progress, n);
    var shown := Replay(Trace(inputs, output)[..executed], views, s0).frames;
    RenderedPrefix(shown, whole);
    if shown != [] {
      assert Rendered(shown)[|shown| - 1] == Render(shown[|shown| - 1]);
    }
  }

  /** Where a run through the Run handler's table leaves the shared
      progress: between its start and the configured total above it, and at
      that total, shown by the save stage's frame, when the run finishes. */
  lemma RunProgress(inputs: seq<string>, output: string, views: map<Attr, StageView>, s0: Sim,
                    behaviour: Behaviour)
    requires |inputs| >= 1 && Configured(views, |inputs|) && CountersAt(views, s0.ordinals, 1)
    requires s0.frames == []
    ensures var (r, k) := Outcome(Trace(inputs, output), views, behaviour);
            var s := Replay(Trace(inputs, output)[..k], views, s0);
            && s0.progress <= s.progress <= s0.progress + ConfiguredTotal(|inputs|)
            && (r == Finished ==>
                  && s.progress == s0.progress + ConfiguredTotal(|inputs|)
                  && s.frames != [] && s.frames[|s.frames| - 1] == Plain(s.progress, SAVE_LABEL))
  {
    var n := |inputs|;
    var k := Outcome(Trace(inputs, output), views, behaviour).1;
    RunShown(inputs, output, views, s0, behaviour);
    var whole := RunFrames(Planned(n), SAVE_WEIGHT, s0.progress, n);
    var shown := Replay(Trace(inputs, output)[..k], views, s0).frames;
    ReplayProgress(Trace(inputs, output)[..k], views, s0);
    RunFramesBounded(n, s0.progress);
    if shown != [] {
      assert shown[|shown| - 1] in whole;
    }
  }

  /* ---------------------------------------------------------------------
     The Run handler
     --------------------------------------------------------------------- */

  /** How a Run event ends: refused by the validation, finished, reported
      as a missing file, or with an error that escapes the handler. */
  datatype RunOutcome =
    | Rejected(message: string)
    | Succeeded
    | FilesNotFound
    | Propagated(error: PyError)

  /** The handler's reading of the pipeline's result: only
      FileNotFoundError is caught. */
  function Reported(r: PipelineResult): (o: RunOutcome)
    ensures o.Succeeded? <==> r.Finished?
    ensures o.FilesNotFound? <==> r == Failed(FileNotFoundError)
    ensures o.Propagated? ==> r == Failed(o.error) && o.error != FileNotFoundError
    ensures !o.Rejected?
  {
    match r
    case Finished => Succeeded
    case Failed(FileNotFoundError) => FilesNotFound
    case Failed(e) => Propagated(e)
  }

  /** The finally block: hide and zero the bar, blank and hide the label,
      unwrap the four attributes as written, and reset the shared
      progress. */
  method Cleanup(window: Window, lib: Library, counter: ProgressCounter)
    requires lib.Valid()
    modifies window`progress, window`progressVisible, window`caption, window`captionVisible
    modifies lib, counter
    ensures window.progress == 0 && !window.progressVisible
    ensures window.caption == "" && !window.captionVisible
    ensures lib.slots == RestoredAsWritten(old(lib.slots))
    ensures counter.current == 0
  {
    window.UpdateBar(0);
    window.SetBarVisible(false);
    window.UpdateCaption("");
    window.SetCaptionVisible(false);
    RestoreAsWritten(lib);
    ProgressUpdater.Reset(counter);
  }

  /** The finally block after a run that wrapped the four stage
      attributes of `before`: the table it leaves still holds updaters, as
      LeftAsWritten describes. */
  method Finally(window: Window, lib: Library, counter: ProgressCounter,
                 ghost before: map<Attr, Callable>)
    requires Total(before) && Total(lib.slots)
    requires WrapsOf(lib.slots, before) && WrappedOver(lib.slots, before)
    modifies window`progress, window`progressVisible, window`caption, window`captionVisible
    modifies lib, counter
    ensures window.progress == 0 && !window.progressVisible
    ensures window.caption == "" && !window.captionVisible
    ensures LeftAsWritten(lib.slots, before)
    ensures forall a :: Instrumented(a) && a != ImageInit ==>
              lib.slots[a] == Bound(old(lib.slots)[a].wrapper)
    ensures counter.current == 0
  {
    AsWrittenAfterRun(lib.slots, before);
    AsWrittenKeepsWrappers(lib.slots, before);
    Cleanup(window, lib, counter);
  }

  /** Install, with what it leaves behind spelled out for the run. */
  method Prepare(lib: Library, window: Window, counter: ProgressCounter, numFiles: int)
    requires numFiles >= 1 && Unwrapped(lib.slots)
    modifies lib
    ensures Instrumentable(lib.slots, counter, window) && fresh(Wrappers(lib.slots))
    ensures WrapsOf(lib.slots, old(lib.slots))
    ensures WrappedOver(lib.slots, old(lib.slots))
    ensures forall a :: Instrumented(a) ==> fresh(lib.slots[a].wrapper)
    ensures Configured(Views(lib.slots), numFiles)
    ensures CountersAt(Views(lib.slots), Start(lib.slots, counter).ordinals, 1)
    ensures forall a :: a in lib.slots ==> Views(lib.slots)[a].root == Views(old(lib.slots))[a].root
  {
    ghost var before := lib.slots;
    Install(lib, window, counter, numFiles);
    InstalledTable(lib.slots, before, numFiles, counter, window);
  }

  /** Install the wrappers and run the pipeline through them. The run ends
      as it would without the wrappers, and the window shows the frames of
      a complete run, all of them when the run finishes. */
  method Execute(window: Window, lib: Library, counter: ProgressCounter, behaviour: Behaviour,
                 inputs: seq<string>, output: string)
    returns (r: PipelineResult)
    requires |inputs| >= 1 && Unwrapped(lib.slots)
    modifies lib, counter, window`progress, window`caption, window`frames
    ensures r == Outcome(Trace(inputs, output), Views(old(lib.slots)), behaviour).0
    ensures WrapsOf(lib.slots, old(lib.slots))
    ensures WrappedOver(lib.slots, old(lib.slots))
    ensures forall a :: Instrumented(a) ==> fresh(lib.slots[a].wrapper)
    ensures forall a :: a in lib.slots ==>
              WellFormed(lib.slots[a]) && Direct(lib.slots[a]) && Depth(lib.slots[a]) <= 1
    ensures Configured(Views(lib.slots), |inputs|)
    ensures var whole := RunFrames(Planned(|inputs|), SAVE_WEIGHT, old(counter.current), |inputs|);
            && window.frames <= old(window.frames) + Rendered(whole)
            && (r == Finished ==> window.frames == old(window.frames) + Rendered(whole))
    ensures old(counter.current) <= counter.current <= old(counter.current) + ConfiguredTotal(|inputs|)
    ensures Displays(counter, window, |old(window.frames)|, old(window.progress), old(window.caption))
    ensures r == Finished ==>
              && counter.current == old(counter.current) + ConfiguredTotal(|inputs|)
              && window.progress == counter.current && window.caption == SAVE_LABEL
  {
    ghost var before := lib.slots;
    Prepare(lib, window, counter, |inputs|);
    ghost var views := Views(lib.slots);
    ghost var s0 := Start(lib.slots, counter);
    ghost var executed;
    ghost var w0 := window.frames;
    r, executed := RunDiffeomorph(lib, inputs, output, behaviour, counter, window);
    RunOnScreen(inputs, output, views, Views(before), s0, behaviour, executed, w0, window.frames,
                counter.current);
  }

  /** The except and else branches: a missing file blanks the input field
      and shows the error; a finished run fills the bar, shows the closing
      label and redraws; any other error is left to escape. */
  method Report(window: Window, r: PipelineResult) returns (outcome: RunOutcome)
    modifies window`inputs, window`output, window`maxDistortion, window`nSteps, window`caption
    modifies window`error, window`progress, window`frames
    ensures outcome == Reported(r)
    ensures window.maxDistortion == old(window.maxDistortion) && window.nSteps == old(window.nSteps)
    ensures window.output == old(window.output)
    ensures outcome == FilesNotFound ==> window.inputs == "" && window.error == NOT_FOUND
    ensures outcome != FilesNotFound ==>
              window.inputs == old(window.inputs) && window.error == old(window.error)
    ensures outcome == Succeeded ==> window.frames == old(window.frames) + [Frame(100, DONE_LABEL)]
    ensures outcome != Succeeded ==> window.frames == old(window.frames)
    ensures outcome == Succeeded ==> window.progress == 100 && window.caption == DONE_LABEL
    ensures outcome != Succeeded ==>
              window.progress == old(window.progress) && window.caption == old(window.caption)
  {
    if r == Failed(FileNotFoundError) {
      window.UpdateText(INPUTS_KEY, "");
      window.UpdateText(OUTPUTS_KEY, "");
      window.UpdateText(ERROR_KEY, NOT_FOUND);
      outcome := FilesNotFound;
    } else if r.Finished? {
      window.UpdateBar(100);
      window.UpdateCaption(DONE_LABEL);
      window.Refresh();
      outcome := Succeeded;
    } else {
      outcome := Propagated(r.error);
    }
  }

  /** The try block with its except and else branches: install, run,
      report. The wrappers are still installed afterwards. */
  method Attempt(window: Window, lib: Library, counter: ProgressCounter, behaviour: Behaviour,
                 inputs: seq<string>, output: string)
    returns (outcome: RunOutcome)
    requires |inputs| >= 1 && Unwrapped(lib.slots)
    modifies lib, counter
    modifies window`inputs, window`output, window`maxDistortion, window`nSteps, window`caption
    modifies window`error, window`progress, window`frames
    ensures outcome == Reported(Outcome(Trace(inputs, output), Views(old(lib.slots)), behaviour).0)
    ensures WrapsOf(lib.slots, old(lib.slots))
    ensures WrappedOver(lib.slots, old(lib.slots))
    ensures forall a :: Instrumented(a) ==> fresh(lib.slots[a].wrapper)
    ensures window.maxDistortion == old(window.maxDistortion) && window.nSteps == old(window.nSteps)
    ensures window.output == old(window.output)
    ensures outcome == FilesNotFound ==> window.inputs == "" && window.error == NOT_FOUND
    ensures outcome != FilesNotFound ==>
              window.inputs == old(window.inputs) && window.error == old(window.error)
    ensures var whole := RunFrames(Planned(|inputs|), SAVE_WEIGHT, old(counter.current), |inputs|);
            && (outcome == Succeeded ==>
                  window.frames == old(window.frames) + Rendered(whole) + [Frame(100, DONE_LABEL)])
            && (outcome != Succeeded ==> window.frames <= old(window.frames) + Rendered(whole))
    ensures old(counter.current) <= counter.current <= old(counter.current) + ConfiguredTotal(|inputs|)
    ensures outcome == Succeeded ==>
              && counter.current == old(counter.current) + ConfiguredTotal(|inputs|)
              && window.progress == 100 && window.caption == DONE_LABEL
    ensures outcome != Succeeded ==>
              Displays(counter, window, |old(window.frames)|, old(window.progress), old(window.caption))
  {
    var r := Execute(window, lib, counter, behaviour, inputs, output);
    outcome := Report(window, r);
  }

  /** The Run handler from the install of the wrappers on: the try block,
      then the finally block. */
  method Launch(window: Window, lib: Library, counter: ProgressCounter, behaviour: Behaviour,
                inputs: seq<string>, output: string)
    returns (outcome: RunOutcome)
    requires |inputs| >= 1 && Unwrapped(lib.slots)
    modifies window, lib, counter
    ensures outcome == Reported(Outcome(Trace(inputs, output), Views(old(lib.slots)), behaviour).0)
    ensures LeftAsWritten(lib.slots, old(lib.slots))
    ensures forall a :: Instrumented(a) && a != ImageInit ==> fresh(lib.slots[a].wrapper)
    ensures counter.current == 0
    ensures window.progress == 0 && !window.progressVisible
    ensures window.caption == "" && !window.captionVisible
    ensures window.maxDistortion == old(window.maxDistortion) && window.nSteps == old(window.nSteps)
    ensures window.errorColor == old(window.errorColor)
    ensures window.output == old(window.output)
    ensures outcome == FilesNotFound ==> window.inputs == "" && window.error == NOT_FOUND
    ensures outcome != FilesNotFound ==>
              window.inputs == old(window.inputs) && window.error == old(window.error)
    ensures var whole := RunFrames(Planned(|inputs|), SAVE_WEIGHT, old(counter.current), |inputs|);
            && (outcome == Succeeded ==>
                  window.frames == old(window.frames) + Rendered(whole) + [Frame(100, DONE_LABEL)])
            && (outcome != Succeeded ==> window.frames <= old(window.frames) + Rendered(whole))
  {
    ghost var before := lib.slots;
    ghost var color := window.errorColor;
    outcome := Attempt(window, lib, counter, behaviour, inputs, output);
    assert window.errorColor == color;
    Finally(window, lib, counter, before);
  }

  /** The finally block with the restore as evidently intended. */
  method CleanupIntended(window: Window, lib: Library, counter: ProgressCounter)
    requires lib.Valid()
    modifies window`progress, window`progressVisible, window`caption, window`captionVisible
    modifies lib, counter
    ensures window.progress == 0 && !window.progressVisible
    ensures window.caption == "" && !window.captionVisible
    ensures lib.slots == Restored(old(lib.slots))
    ensures counter.current == 0
  {
    window.UpdateBar(0);
    window.SetBarVisible(false);
    window.UpdateCaption("");
    window.SetCaptionVisible(false);
    Restore(lib);
    ProgressUpdater.Reset(counter);
  }

  /** Launch with the corrected finally block: the attribute table after
      the run is the table before it, so every run starts from the same
      library functions. */
  method LaunchIntended(window: Window, lib: Library, counter: ProgressCounter, behaviour: Behaviour,
                        inputs: seq<string>, output: string)
    returns (outcome: RunOutcome)
    requires |inputs| >= 1 && Unwrapped(lib.slots)
    modifies window, lib, counter
    ensures outcome == Reported(Outcome(Trace(inputs, output), Views(old(lib.slots)), behaviour).0)
    ensures lib.slots == old(lib.slots)
    ensures counter.current == 0
    ensures window.progress == 0 && !window.progressVisible
    ensures window.caption == "" && !window.captionVisible
    ensures window.maxDistortion == old(window.maxDistortion) && window.nSteps == old(window.nSteps)
    ensures window.errorColor == old(window.errorColor)
    ensures window.output == old(window.output)
    ensures outcome == FilesNotFound ==> window.inputs == "" && window.error == NOT_FOUND
    ensures outcome != FilesNotFound ==>
              window.inputs == old(window.inputs) && window.error == old(window.error)
    ensures var whole := RunFrames(Planned(|inputs|), SAVE_WEIGHT, old(counter.current), |inputs|);
            && (outcome == Succeeded ==>
                  window.frames == old(window.frames) + Rendered(whole) + [Frame(100, DONE_LABEL)])
            && (outcome != Succeeded ==> window.frames <= old(window.frames) + Rendered(whole))
  {
    ghost var before := lib.slots;
    ghost var color := window.errorColor;
    outcome := Attempt(window, lib, counter, behaviour, inputs, output);
    assert window.errorColor == color;
    RestoredUndoesInstall(lib.slots, before);
    CleanupIntended(window, lib, counter);
  }

  /** Clear the error line, and show the bar at 0 and its label. */
  method ShowRunStarted(window: Window)
    modifies window`inputs, window`output, window`maxDistortion, window`nSteps, window`caption
    modifies window`error, window`progress, window`progressVisible, window`captionVisible
    ensures window.State()
            == old(window.State()).(error := "", progress := 0, progressVisible := true,
                                    captionVisible := true)
  {
    window.UpdateText(ERROR_KEY, "");
    window.UpdateBar(0);
    window.SetBarVisible(true);
    window.SetCaptionVisible(true);
  }

  /** One Run event on the window's current fields. A refused run changes
      only the error line. Otherwise the error line is cleared, the bar and
      its label are shown, the input field is split on ';', and the
      pipeline runs through the instrumented attributes; the run ends as it
      would without them, and afterwards the bar and label are hidden and
      the shared progress is 0. As written, the per-image constructor's
      attribute then holds the batch constructor, and the three other
      attributes hold partials bound to this run's updaters. */
  method OnRun(window: Window, lib: Library, counter: ProgressCounter, behaviour: Behaviour)
    returns (outcome: RunOutcome)
    requires Unwrapped(lib.slots)
    modifies window, lib, counter
    ensures outcome.Rejected? <==> Validate(old(window.inputs), old(window.output)).Refuse?
    ensures outcome.Rejected? ==>
              && outcome.message == Validate(old(window.inputs), old(window.output)).message
              && window.State() == old(window.State()).(error := outcome.message, errorColor := ERROR_COLOR)
              && lib.slots == old(lib.slots) && counter.current == old(counter.current)
    ensures !outcome.Rejected? ==>
              var inputs := Split(old(window.inputs), ';');
              var n := FileCount(old(window.inputs));
              var whole := RunFrames(Planned(n), SAVE_WEIGHT, old(counter.current), n);
              && outcome == Reported(Outcome(Trace(inputs, old(window.output)), Views(old(lib.slots)),
                                             behaviour).0)
              && LeftAsWritten(lib.slots, old(lib.slots))
              && (forall a :: Instrumented(a) && a != ImageInit ==> fresh(lib.slots[a].wrapper))
              && counter.current == 0
              && window.progress == 0 && !window.progressVisible
              && window.caption == "" && !window.captionVisible
              && window.maxDistortion == old(window.maxDistortion) && window.nSteps == old(window.nSteps)
              && window.output == old(window.output) && window.errorColor == old(window.errorColor)
              && (outcome == FilesNotFound ==> window.inputs == "" && window.error == NOT_FOUND)
              && (outcome != FilesNotFound ==> window.inputs == old(window.inputs) && window.error == "")
              && (outcome == Succeeded ==>
                    window.frames == old(window.frames) + Rendered(whole) + [Frame(100, DONE_LABEL)])
              && (outcome != Succeeded ==> window.frames <= old(window.frames) + Rendered(whole))
  {
    var v := Validate(window.inputs, window.output);
    if v.Refuse? {
      window.ShowError(v.message, ERROR_COLOR);
      return Rejected(v.message);
    }
    ShowRunStarted(window);
    var inputs := Split(window.inputs, ';');
    outcome := Launch(window, lib, counter, behaviour, inputs, window.output);
  }

  /** Every frame a run shows lies between where the bar started and that
      plus the configured total, which is at most the bar's maximum of 100;
      the save stage's frame, the last before the forced 100, shows the
      full configured total. */
  lemma RunFramesBounded(n: int, p: int)
    requires n >= 1
    ensures forall f :: f in RunFrames(Planned(n), SAVE_WEIGHT, p, n) ==>
              p <= f.progress <= p + ConfiguredTotal(n)
    ensures RunFrames(Planned(n), SAVE_WEIGHT, p, n)[3 * n].progress == p + ConfiguredTotal(n)
    ensures ConfiguredTotal(n) <= 100
  {
    FilesBounded(Planned(n), p, 1, n);
    TotalIsGained(n);
    ConfiguredTotalBounded(n);
  }

  /* ---------------------------------------------------------------------
     The digit-only fields
     --------------------------------------------------------------------- */

  /** An edit event on the max-distortion or step-count field: the filter
      as written decides, and a replacement is written back into that
      field and no other. An IndexError leaves the field as it was. */
  method OnDigitFieldEvent(window: Window, key: string) returns (e: FieldEdit)
    requires key == MAXDISTORTION_KEY || key == NSTEPS_KEY
    modifies window`inputs, window`output, window`maxDistortion, window`nSteps, window`caption
    modifies window`error
    ensures key == MAXDISTORTION_KEY ==> e == DigitFilterAsWritten(old(window.maxDistortion))
    ensures key == NSTEPS_KEY ==> e == DigitFilterAsWritten(old(window.nSteps))
    ensures e.Replace? ==> window.State() == WithText(old(window.State()), key, e.text)
    ensures !e.Replace? ==> window.State() == old(window.State())
  {
    var field := if key == MAXDISTORTION_KEY then window.maxDistortion else window.nSteps;
    e := DigitFilterAsWritten(field);
    if e.Replace? {
      window.UpdateText(key, e.text);
    }
  }
}
