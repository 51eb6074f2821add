/** The four stages the Run handler wraps, and what a run through the
    wrapped table shows: the bar's values and the labels, file by file
    (run-gui.py). */
module Stages {
  import opened Text
  import opened Progress
  import opened Ui
  import opened Instrument
  import opened Diffeo

  const INIT_LABEL: string := "Initializing image..."
  const DIFFEO_LABEL: string := "Generating diffeomorphic flow field..."
  const INTERPOLATE_LABEL: string := "Interpolating image (this may take a while; do not close window!)..."
  const SAVE_LABEL: string := "Saving files (do not close window!)..."

  /** How the Run handler wraps an attribute: the stage's weight, its
      label, and whether it runs once per file. */
  datatype Plan = Plan(weight: int, labelText: string, runsEachFile: bool)

  /** The Run handler wraps every attribute but `DiffeoImageDir.__init__`. */
  predicate Instrumented(a: Attr) {
    a != DirInit
  }

  function PlanOf(a: Attr): (p: Plan)
    requires Instrumented(a)
    ensures p.runsEachFile <==> a != DirSave
    ensures p.weight >= 0
  {
    match a
    case ImageInit => Plan(INIT_WEIGHT, INIT_LABEL, true)
    case ImageGetDiffeo => Plan(DIFFEO_WEIGHT, DIFFEO_LABEL, true)
    case ImageInterpolate => Plan(INTERPOLATE_WEIGHT, INTERPOLATE_LABEL, true)
    case DirSave => Plan(SAVE_WEIGHT, SAVE_LABEL, false)
  }

  /** The view at an attribute the Run handler wrapped: a wrapper that
      counts files or not, and never takes the bar back. */
  predicate Reporting(v: StageView, perFile: bool) {
    v.Reports? && v.perFile == perFile && v.increment >= 0
  }

  /** A table as the Run handler leaves it: the batch constructor untouched,
      the other four attributes wrapped, the three per-file stages counting
      files with wrappers of their own and the save stage not counting. */
  predicate Shaped(views: map<Attr, StageView>) {
    && Total(views)
    && views[DirInit].Silent?
    && Reporting(views[ImageInit], true)
    && Reporting(views[ImageGetDiffeo], true)
    && Reporting(views[ImageInterpolate], true)
    && Reporting(views[DirSave], false)
    && views[ImageInit].wrapper != views[ImageGetDiffeo].wrapper
    && views[ImageInit].wrapper != views[ImageInterpolate].wrapper
    && views[ImageGetDiffeo].wrapper != views[ImageInterpolate].wrapper
  }

  /** Each wrapper shows the label planned for its stage. */
  predicate Labelled(views: map<Attr, StageView>)
    requires Shaped(views)
  {
    && views[ImageInit].labelText == INIT_LABEL
    && views[ImageGetDiffeo].labelText == DIFFEO_LABEL
    && views[ImageInterpolate].labelText == INTERPOLATE_LABEL
    && views[DirSave].labelText == SAVE_LABEL
  }

  /** In a run of n files, each wrapper adds the increment its weight gives
      and shows its stage's label. */
  predicate Configured(views: map<Attr, StageView>, n: int)
    requires n >= 1
  {
    && Shaped(views)
    && Labelled(views)
    && views[ImageInit].increment == Increment(INIT_WEIGHT, n, true)
    && views[ImageGetDiffeo].increment == Increment(DIFFEO_WEIGHT, n, true)
    && views[ImageInterpolate].increment == Increment(INTERPOLATE_WEIGHT, n, true)
    && views[DirSave].increment == Increment(SAVE_WEIGHT, n, false)
  }

  /** The three per-file wrappers all stand at file number k. */
  predicate CountersAt(views: map<Attr, StageView>, ordinals: map<ProgressUpdater, nat>, k: nat)
    requires Shaped(views)
  {
    && Tracks(views, ordinals)
    && ordinals[views[ImageInit].wrapper] == k
    && ordinals[views[ImageGetDiffeo].wrapper] == k
    && ordinals[views[ImageInterpolate].wrapper] == k
  }

  /** What a per-file stage adds per call and the label it shows. */
  datatype Step = Step(increment: nat, labelText: string)

  /** The per-file stages in the order a file goes through them. */
  datatype FileStages = FileStages(init: Step, diffeo: Step, interpolate: Step) {
    function At(j: nat): Step
      requires j < 3
    {
      if j == 0 then init else if j == 1 then diffeo else interpolate
    }
  }

  /** The per-file stages of a wrapped table. */
  function StagesOf(views: map<Attr, StageView>): FileStages
    requires Shaped(views)
  {
    FileStages(Step(views[ImageInit].increment, views[ImageInit].labelText),
               Step(views[ImageGetDiffeo].increment, views[ImageGetDiffeo].labelText),
               Step(views[ImageInterpolate].increment, views[ImageInterpolate].labelText))
  }

  /** The per-file stages as the Run handler configures them for n files. */
  function Planned(n: int): (st: FileStages)
    requires n >= 1
    ensures st.init.increment + st.diffeo.increment + st.interpolate.increment
            == Increment(INIT_WEIGHT, n, true) + Increment(DIFFEO_WEIGHT, n, true)
               + Increment(INTERPOLATE_WEIGHT, n, true)
  {
    FileStages(Step(Increment(INIT_WEIGHT, n, true), INIT_LABEL),
               Step(Increment(DIFFEO_WEIGHT, n, true), DIFFEO_LABEL),
               Step(Increment(INTERPOLATE_WEIGHT, n, true), INTERPOLATE_LABEL))
  }

  /** A configured table has exactly the planned per-file stages. */
  lemma ConfiguredStages(views: map<Attr, StageView>, n: int)
    requires n >= 1 && Configured(views, n)
    ensures StagesOf(views) == Planned(n)
  {
  }

  /** What a file has added once its j-th stage (from 0) has reported. */
  function Reached(st: FileStages, j: nat): (g: nat)
    requires j < 3
    ensures g <= FileGain(st)
  {
    st.init.increment
    + (if j >= 1 then st.diffeo.increment else 0)
    + (if j >= 2 then st.interpolate.increment else 0)
  }

  /** What one file adds to the bar over its three stages. */
  function FileGain(st: FileStages): nat {
    st.init.increment + st.diffeo.increment + st.interpolate.increment
  }

  /** What m files add to the bar, file by file. */
  function Gained(st: FileStages, m: nat): (g: nat)
    ensures m >= 1 ==> g >= FileGain(st)
  {
    if m == 0 then 0 else FileGain(st) + Gained(st, m - 1)
  }

  /** The three frames file number k shows when the bar stood at p before it. */
  function FileFrames(st: FileStages, p: int, k: nat): seq<Shown> {
    [Numbered(p + Reached(st, 0), k, st.init.labelText),
     Numbered(p + Reached(st, 1), k, st.diffeo.labelText),
     Numbered(p + Reached(st, 2), k, st.interpolate.labelText)]
  }

  /** The frames of m files numbered from k, starting with the bar at p. */
  function ExpectedFiles(st: FileStages, p: int, k: nat, m: nat): (f: seq<Shown>)
    ensures |f| == 3 * m
    decreases m
  {
    if m == 0 then []
    else FileFrames(st, p, k) + ExpectedFiles(st, p + FileGain(st), k + 1, m - 1)
  }

  lemma ExpectedFilesCons(st: FileStages, p: int, k: nat, m: nat, q: int, j: nat)
    requires m >= 1 && q == p + FileGain(st) && j == m - 1
    ensures ExpectedFiles(st, p, k, m) == FileFrames(st, p, k) + ExpectedFiles(st, q, k + 1, j)
  {
  }

  /** Frame x of the per-file frames belongs to file k + x/3 and to stage
      x%3 of that file: every per-file stage numbers its files k, k+1, … in
      order, and the bar has gained a whole file's worth for each file
      before. */
  lemma ExpectedFilesAt(st: FileStages, p: int, k: nat, m: nat)
    ensures forall x :: 0 <= x < 3 * m ==>
              ExpectedFiles(st, p, k, m)[x]
              == Numbered(p + Gained(st, x / 3) + Reached(st, x % 3), k + x / 3,
                          st.At(x % 3).labelText)
  {
    forall x | 0 <= x < 3 * m
      ensures ExpectedFiles(st, p, k, m)[x]
              == Numbered(p + Gained(st, x / 3) + Reached(st, x % 3), k + x / 3,
                          st.At(x % 3).labelText)
    {
      ExpectedFrame(st, p, k, m, x);
    }
  }

  lemma {:induction false} ExpectedFrame(st: FileStages, p: int, k: nat, m: nat, x: nat)
    requires x < 3 * m
    ensures ExpectedFiles(st, p, k, m)[x]
            == Numbered(p + Gained(st, x / 3) + Reached(st, x % 3), k + x / 3,
                        st.At(x % 3).labelText)
    decreases m
  {
    var g := FileGain(st);
    var rest := ExpectedFiles(st, p + g, k + 1, m - 1);
    assert ExpectedFiles(st, p, k, m) == FileFrames(st, p, k) + rest;
    if x >= 3 {
      var y := x - 3;
      assert x / 3 == y / 3 + 1 && x % 3 == y % 3;
      ExpectedFrame(st, p + g, k + 1, m - 1, y);
    }
  }

  /** Every per-file frame of a run shows at most what the files gain in all. */
  lemma {:induction false} FilesBounded(st: FileStages, p: int, k: nat, m: nat)
    ensures forall f :: f in ExpectedFiles(st, p, k, m) ==> p <= f.progress <= p + Gained(st, m)
    decreases m
  {
    if m > 0 {
      FilesBounded(st, p + FileGain(st), k + 1, m - 1);
    }
  }

  /** Replaying one sequence after another is replaying both. */
  lemma {:induction false} ReplayAppend(a: seq<StageCall>, b: seq<StageCall>,
                                        views: map<Attr, StageView>, s0: Sim)
    requires Total(views) && Tracks(views, s0.ordinals)
    ensures Replay(a + b, views, s0) == Replay(b, views, Replay(a, views, s0))
    decreases |b|
  {
    if b == [] {
      assert a + b == a;
    } else {
      var front := b[..|b| - 1];
      ReplayAppend(a, front, views, s0);
      assert (a + b)[..|a + b| - 1] == a + front;
      assert (a + b)[|a + b| - 1] == b[|b| - 1];
    }
  }

  /** Three calls in a row. */
  lemma ReplayThree(c: seq<StageCall>, views: map<Attr, StageView>, s: Sim)
    requires |c| == 3 && Total(views) && Tracks(views, s.ordinals)
    ensures Replay(c, views, s)
            == Advance(Advance(Advance(s, views[c[0].attr]), views[c[1].attr]), views[c[2].attr])
  {
    var c1, c2 := c[..1], c[..2];
    assert c1[..0] == [] && c1[0] == c[0];
    assert Replay(c1[..0], views, s) == s;
    var s1 := Replay(c1, views, s);
    assert s1 == Advance(Replay(c1[..0], views, s), views[c1[0].attr]);
    assert s1 == Advance(s, views[c[0].attr]);
    assert c2[..1] == c1 && c2[1] == c[1];
    var s2 := Replay(c2, views, s);
    assert s2 == Advance(s1, views[c[1].attr]);
    assert c[..2] == c2;
  }

  /** One call through a wrapper that counts files, standing at file k. */
  lemma CountingStep(s: Sim, v: StageView, k: nat)
    requires v.Reports? && v.perFile && v.wrapper in s.ordinals && s.ordinals[v.wrapper] == k
    ensures Advance(s, v) == Sim(s.progress + v.increment, s.ordinals[v.wrapper := k + 1],
                                 s.frames + [Numbered(s.progress + v.increment, k, v.labelText)])
  {
  }

  /** One file through the three per-file stages. */
  lemma OneFile(path: string, views: map<Attr, StageView>, s: Sim, k: nat)
    requires Shaped(views) && CountersAt(views, s.ordinals, k)
    ensures Replay(PerFile(path), views, s).progress == s.progress + FileGain(StagesOf(views))
    ensures CountersAt(views, Replay(PerFile(path), views, s).ordinals, k + 1)
    ensures Replay(PerFile(path), views, s).frames == s.frames + FileFrames(StagesOf(views), s.progress, k)
  {
    ReplayThree(PerFile(path), views, s);
    ThreeStages(views, s, k);
  }

  /** The three per-file stages, one after the other, for file number k. */
  lemma ThreeStages(views: map<Attr, StageView>, s: Sim, k: nat)
    requires Shaped(views) && CountersAt(views, s.ordinals, k)
    ensures Advance(Advance(Advance(s, views[ImageInit]), views[ImageGetDiffeo]), views[ImageInterpolate]).progress
            == s.progress + FileGain(StagesOf(views))
    ensures CountersAt(views, Advance(Advance(Advance(s, views[ImageInit]), views[ImageGetDiffeo]),
                                      views[ImageInterpolate]).ordinals, k + 1)
    ensures Advance(Advance(Advance(s, views[ImageInit]), views[ImageGetDiffeo]), views[ImageInterpolate]).frames
            == s.frames + FileFrames(StagesOf(views), s.progress, k)
  {
    var v0, v1, v2 := views[ImageInit], views[ImageGetDiffeo], views[ImageInterpolate];
    CountingStep(s, v0, k);
    var s1 := Advance(s, v0);
    CountingStep(s1, v1, k);
    var s2 := Advance(s1, v1);
    CountingStep(s2, v2, k);
    var s3 := Advance(s2, v2);
    assert s3.frames == s.frames + FileFrames(StagesOf(views), s.progress, k);
  }

  /** A run of files through the wrapped table shows the expected frames. */
  lemma {:induction false} Files(inputs: seq<string>, views: map<Attr, StageView>, s: Sim, k: nat)
    requires Shaped(views) && CountersAt(views, s.ordinals, k)
    ensures Replay(FileCalls(inputs), views, s).progress == s.progress + Gained(StagesOf(views), |inputs|)
    ensures CountersAt(views, Replay(FileCalls(inputs), views, s).ordinals, k + |inputs|)
    ensures Replay(FileCalls(inputs), views, s).frames
            == s.frames + ExpectedFiles(StagesOf(views), s.progress, k, |inputs|)
    decreases |inputs|
  {
    if inputs != [] {
      var m := |inputs|;
      var rest := inputs[1..];
      assert |rest| == m - 1;
      assert FileCalls(inputs) == PerFile(inputs[0]) + FileCalls(rest);
      ReplayAppend(PerFile(inputs[0]), FileCalls(rest), views, s);
      OneFile(inputs[0], views, s, k);
      var t := Replay(PerFile(inputs[0]), views, s);
      Files(rest, views, t, k + 1);
      var r := Replay(FileCalls(rest), views, t);
      assert Replay(FileCalls(inputs), views, s) == r;
      var f := FileFrames(StagesOf(views), s.progress, k);
      var e := ExpectedFiles(StagesOf(views), t.progress, k + 1, |rest|);
      ExpectedFilesCons(StagesOf(views), s.progress, k, m, t.progress, |rest|);
      Associative(s.frames, f, e);
      assert r.frames == s.frames + (f + e);
    }
  }

  /** A complete run of n files: the batch constructor shows nothing, each
      file shows its three frames numbered 1 to n, and the save shows one
      frame with its label verbatim. The bar ends ConfiguredTotal(n) above
      where it started. */
  lemma CompleteRun(inputs: seq<string>, output: string, views: map<Attr, StageView>, s0: Sim)
    requires |inputs| >= 1 && Configured(views, |inputs|) && CountersAt(views, s0.ordinals, 1)
    ensures Replay(Trace(inputs, output), views, s0).progress == s0.progress + ConfiguredTotal(|inputs|)
    ensures Replay(Trace(inputs, output), views, s0).frames
            == s0.frames + RunFrames(Planned(|inputs|), SAVE_WEIGHT, s0.progress, |inputs|)
  {
    var n := |inputs|;
    ConfiguredStages(views, n);
    TotalIsGained(n);
    WholeRunProgress(inputs, output, views, s0);
    WholeRunFrames(inputs, output, views, s0);
  }

  /** The frames a complete run of n files shows when the bar starts at p:
      three per file, numbered from 1, then the save's. */
  function RunFrames(st: FileStages, saveIncrement: int, p: int, n: nat): (f: seq<Shown>)
    ensures |f| == 3 * n + 1
  {
    ExpectedFiles(st, p, 1, n) + [Plain(p + Gained(st, n) + saveIncrement, SAVE_LABEL)]
  }

  /** The bar after a complete run through any table shaped like the Run
      handler's. */
  lemma WholeRunProgress(inputs: seq<string>, output: string, views: map<Attr, StageView>, s0: Sim)
    requires Shaped(views) && Labelled(views) && CountersAt(views, s0.ordinals, 1)
    ensures Replay(Trace(inputs, output), views, s0).progress
            == s0.progress + Gained(StagesOf(views), |inputs|) + views[DirSave].increment
  {
    TraceSplit(inputs, output, views, s0);
    SaveAfterFilesProgress(inputs, output, views, s0);
  }

  /** The frames of a complete run through any table shaped like the Run
      handler's. */
  lemma WholeRunFrames(inputs: seq<string>, output: string, views: map<Attr, StageView>, s0: Sim)
    requires Shaped(views) && Labelled(views) && CountersAt(views, s0.ordinals, 1)
    ensures Replay(Trace(inputs, output), views, s0).frames
            == s0.frames + RunFrames(StagesOf(views), views[DirSave].increment, s0.progress, |inputs|)
  {
    TraceSplit(inputs, output, views, s0);
    SaveAfterFilesFrames(inputs, output, views, s0);
  }

  /** The bar after the calls before the save, then the save. */
  lemma SaveAfterFilesProgress(inputs: seq<string>, output: string, views: map<Attr, StageView>, s0: Sim)
    requires Shaped(views) && Labelled(views) && CountersAt(views, s0.ordinals, 1)
    ensures Replay([StageCall(DirSave, [output])], views, Replay(BatchAndFiles(inputs, output), views, s0)).progress
            == s0.progress + Gained(StagesOf(views), |inputs|) + views[DirSave].increment
  {
    var t := Replay(BatchAndFiles(inputs, output), views, s0);
    BatchThenFiles(inputs, output, views, s0);
    SaveStep(output, views, t);
  }

  /** The frames of the calls before the save, then the save's. */
  lemma SaveAfterFilesFrames(inputs: seq<string>, output: string, views: map<Attr, StageView>, s0: Sim)
    requires Shaped(views) && Labelled(views) && CountersAt(views, s0.ordinals, 1)
    ensures Replay([StageCall(DirSave, [output])], views, Replay(BatchAndFiles(inputs, output), views, s0)).frames
            == s0.frames + RunFrames(StagesOf(views), views[DirSave].increment, s0.progress, |inputs|)
  {
    var t := Replay(BatchAndFiles(inputs, output), views, s0);
    BatchThenFiles(inputs, output, views, s0);
    SaveStep(output, views, t);
    ThenSave(s0, t, Replay([StageCall(DirSave, [output])], views, t), StagesOf(views),
             views[DirSave].increment, |inputs|);
  }

  /** The calls of a run before the save. */
  function BatchAndFiles(inputs: seq<string>, output: string): seq<StageCall> {
    [StageCall(DirInit, inputs + [output])] + FileCalls(inputs)
  }

  /** A run is its calls before the save, then the save. */
  lemma TraceSplit(inputs: seq<string>, output: string, views: map<Attr, StageView>, s0: Sim)
    requires Total(views) && Tracks(views, s0.ordinals)
    ensures Replay(Trace(inputs, output), views, s0)
            == Replay([StageCall(DirSave, [output])], views, Replay(BatchAndFiles(inputs, output), views, s0))
  {
    assert Trace(inputs, output) == BatchAndFiles(inputs, output) + [StageCall(DirSave, [output])];
    ReplayAppend(BatchAndFiles(inputs, output), [StageCall(DirSave, [output])], views, s0);
  }

  lemma ThenSave(s0: Sim, t: Sim, r: Sim, st: FileStages, inc: int, n: nat)
    requires t.progress == s0.progress + Gained(st, n) && t.frames == s0.frames + ExpectedFiles(st, s0.progress, 1, n)
    requires r.frames == t.frames + [Plain(t.progress + inc, SAVE_LABEL)]
    ensures r.frames == s0.frames + RunFrames(st, inc, s0.progress, n)
  {
  }

  /** The batch constructor shows nothing; the files then show their frames. */
  lemma BatchThenFiles(inputs: seq<string>, output: string, views: map<Attr, StageView>, s0: Sim)
    requires Shaped(views) && CountersAt(views, s0.ordinals, 1)
    ensures Replay(BatchAndFiles(inputs, output), views, s0).progress
            == s0.progress + Gained(StagesOf(views), |inputs|)
    ensures Replay(BatchAndFiles(inputs, output), views, s0).frames
            == s0.frames + ExpectedFiles(StagesOf(views), s0.progress, 1, |inputs|)
  {
    var first := [StageCall(DirInit, inputs + [output])];
    assert Replay(first, views, s0) == s0 by {
      assert first[..0] == [];
    }
    ReplayAppend(first, FileCalls(inputs), views, s0);
    Files(inputs, views, s0, 1);
  }

  /** The batch save, last in a run, shows its label verbatim. */
  lemma SaveStep(output: string, views: map<Attr, StageView>, t: Sim)
    requires Shaped(views) && Labelled(views) && Tracks(views, t.ordinals)
    ensures Replay([StageCall(DirSave, [output])], views, t).progress == t.progress + views[DirSave].increment
    ensures Replay([StageCall(DirSave, [output])], views, t).frames
            == t.frames + [Plain(t.progress + views[DirSave].increment, SAVE_LABEL)]
  {
    var save := [StageCall(DirSave, [output])];
    assert save[..0] == [];
    assert Replay(save, views, t) == Advance(t, views[DirSave]);
  }

  /** With the configured weights, the files gain ConfiguredTotal(n) less
      the save's weight. */
  lemma TotalIsGained(n: int)
    requires n >= 1
    ensures ConfiguredTotal(n) == Gained(Planned(n), n) + SAVE_WEIGHT
  {
    GainedIsProduct(Planned(n), n);
    Distribute(Increment(INIT_WEIGHT, n, true), Increment(DIFFEO_WEIGHT, n, true),
               Increment(INTERPOLATE_WEIGHT, n, true), n);
    assert FileGain(Planned(n)) * n == n * FileGain(Planned(n));
  }

  /** m files gain m times what one file gains. */
  lemma {:induction false} GainedIsProduct(st: FileStages, m: nat)
    ensures Gained(st, m) == m * FileGain(st)
  {
    if m > 0 {
      GainedIsProduct(st, m - 1);
      MulSucc(m, FileGain(st));
    }
  }

  /** The frames of a run cut short are the first frames of the complete
      run, and, with no negative increment, the bar never stands higher
      than at the end of the complete run. */
  lemma {:induction false} ReplayPrefix(calls: seq<StageCall>, k: nat, views: map<Attr, StageView>, s0: Sim)
    requires k <= |calls| && Total(views) && Tracks(views, s0.ordinals)
    requires forall a :: a in views && views[a].Reports? ==> views[a].increment >= 0
    ensures Replay(calls[..k], views, s0).frames <= Replay(calls, views, s0).frames
    ensures Replay(calls[..k], views, s0).progress <= Replay(calls, views, s0).progress
    decreases |calls| - k
  {
    if k < |calls| {
      var front := calls[..|calls| - 1];
      assert front[..k] == calls[..k];
      ReplayPrefix(front, k, views, s0);
    } else {
      assert calls[..k] == calls;
    }
  }

  lemma Associative<T>(a: seq<T>, b: seq<T>, c: seq<T>)
    ensures a + (b + c) == (a + b) + c
  {
  }

  lemma MulSucc(m: int, g: int)
    ensures (m - 1) * g + g == m * g
  {
  }
}
