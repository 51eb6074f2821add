/** The arithmetic and the label text of a ProgressUpdater, and the stage
    weights the run handler configures (run-gui.py). */
module Progress {
  import opened Text

  /** The amount one call of a wrapped stage adds to the shared progress:
      `floor(stage_progress / num_files)` when the stage runs once per file,
      `stage_progress` when it runs once per batch. */
  function Increment(stageProgress: int, numFiles: int, runsEachFile: bool): (inc: int)
    requires runsEachFile ==> numFiles >= 1
    ensures stageProgress >= 0 ==> 0 <= inc <= stageProgress
    ensures !runsEachFile ==> inc == stageProgress
  {
    if runsEachFile then stageProgress / numFiles else stageProgress
  }

  /** Over a run of n files a per-file stage contributes exactly its weight
      if and only if n divides the weight; otherwise it falls short. */
  lemma PerFileContributionExact(stageProgress: int, numFiles: int)
    requires numFiles >= 1
    ensures Increment(stageProgress, numFiles, true) * numFiles <= stageProgress
            < Increment(stageProgress, numFiles, true) * numFiles + numFiles
    ensures Increment(stageProgress, numFiles, true) * numFiles == stageProgress
            <==> stageProgress % numFiles == 0
  {
    var inc := Increment(stageProgress, numFiles, true);
    assert stageProgress == inc * numFiles + stageProgress % numFiles;
    ModMultiple(inc, numFiles);
  }

  lemma ModMultiple(k: int, n: int)
    requires n >= 1
    ensures (k * n) % n == 0
  {
    var q := (k * n) / n;
    var r := (k * n) % n;
    assert k * n == q * n + r && 0 <= r < n;
    assert (k - q) * n == r;
    MulAwayFromZero(k - q, n);
  }

  lemma MulAwayFromZero(x: int, n: int)
    requires n >= 1
    ensures x >= 1 ==> x * n >= n
    ensures x <= -1 ==> x * n <= -n
  {
  }

  // The weights the Run handler gives the four wrapped stages.
  const INIT_WEIGHT: int := 5
  const DIFFEO_WEIGHT: int := 25
  const INTERPOLATE_WEIGHT: int := 65
  const SAVE_WEIGHT: int := 5

  /** The shared progress after a successful run of n files that started
      at 0, before the bar is forced to 100: three per-file stages called
      n times each, and the batch save stage called once. */
  function ConfiguredTotal(n: int): int
    requires n >= 1
  {
    (Increment(INIT_WEIGHT, n, true) + Increment(DIFFEO_WEIGHT, n, true)
      + Increment(INTERPOLATE_WEIGHT, n, true)) * n
    + Increment(SAVE_WEIGHT, n, false)
  }

  /** The configured weights never drive the bar past its maximum of 100,
      and they reach it exactly only when the file count divides every
      per-file weight, that is for 1 or 5 files. */
  lemma ConfiguredTotalBounded(n: int)
    requires n >= 1
    ensures ConfiguredTotal(n) <= 100
    ensures ConfiguredTotal(n) == 100 <==> n == 1 || n == 5
  {
    var a, b, c := Increment(INIT_WEIGHT, n, true), Increment(DIFFEO_WEIGHT, n, true),
                   Increment(INTERPOLATE_WEIGHT, n, true);
    Distribute(a, b, c, n);
    if n >= 6 {
      assert a == 0;
      assert ConfiguredTotal(n) <= 0 + 25 + 65 + 5;
    } else {
      SmallFileCounts(n);
    }
  }

  lemma Distribute(a: int, b: int, c: int, n: int)
    ensures (a + b + c) * n == a * n + b * n + c * n
  {
  }

  lemma SmallFileCounts(n: int)
    requires 1 <= n <= 5
    ensures ConfiguredTotal(n) == [100, 97, 95, 97, 100][n - 1]
  {
    if n == 1 {
      assert ConfiguredTotal(1) == 100;
    } else if n == 2 {
      assert ConfiguredTotal(2) == 97;
    } else if n == 3 {
      assert ConfiguredTotal(3) == 95;
    } else if n == 4 {
      assert ConfiguredTotal(4) == 97;
    } else {
      assert ConfiguredTotal(5) == 100;
    }
  }

  /** With two files the bar stands at 97 before completion is forced:
      2 + 12 + 32 per file, twice, plus 5 for the save. */
  lemma TwoFileScenario()
    ensures Increment(INIT_WEIGHT, 2, true) == 2
    ensures Increment(DIFFEO_WEIGHT, 2, true) == 12
    ensures Increment(INTERPOLATE_WEIGHT, 2, true) == 32
    ensures ConfiguredTotal(2) == 97
  {
  }

  /** `f"File #{k}: {label}"`. */
  function FileLabel(k: nat, labelText: string): string {
    "File #" + DecimalString(k) + ": " + labelText
  }

  /** The label a call shows: numbered per file, verbatim per batch. */
  function DisplayLabel(runsEachFile: bool, fileCount: nat, labelText: string): string {
    if runsEachFile then FileLabel(fileCount, labelText) else labelText
  }

  /** A per-file label is the prefix, then the file number as digits that
      read back as `k`, then the stage label after ": ". */
  lemma FileLabelParts(k: nat, labelText: string)
    ensures var r := FileLabel(k, labelText);
            && |r| == |DecimalString(k)| + |labelText| + 8
            && r[..6] == "File #" && r[|r| - |labelText| - 2..] == ": " + labelText
            && var d := r[6..|r| - |labelText| - 2]; AllDigits(d) && ParseDecimal(d) == k
  {
    var d := DecimalString(k);
    ParseDecimalString(k);
    var r := FileLabel(k, labelText);
    assert r[6..|r| - |labelText| - 2] == d;
  }

  /** The stage label always ends the label a call shows, and is all of
      it exactly when the stage runs once per batch. */
  lemma DisplayLabelEnds(runsEachFile: bool, fileCount: nat, labelText: string)
    ensures var r := DisplayLabel(runsEachFile, fileCount, labelText);
            && (r == labelText <==> !runsEachFile)
            && |r| >= |labelText| && r[|r| - |labelText|..] == labelText
  {
    if runsEachFile {
      FileLabelParts(fileCount, labelText);
      var r := FileLabel(fileCount, labelText);
      assert r[|r| - |labelText|..] == r[|r| - |labelText| - 2..][2..];
    }
  }

  lemma FileLabelInjective(k1: nat, l1: string, k2: nat, l2: string)
    requires FileLabel(k1, l1) == FileLabel(k2, l2)
    ensures k1 == k2 && l1 == l2
  {
    var r := FileLabel(k1, l1);
    FileLabelParts(k1, l1);
    FileLabelParts(k2, l2);
    DigitsEndAtColon(r, l1, l2);
    DigitsEndAtColon(r, l2, l1);
    assert l1 == r[|r| - |l1|..] == l2 by {
      assert r[|r| - |l1|..] == r[|r| - |l1| - 2..][2..];
    }
  }

  /** Read as a label ending in `: a`, the digits after "File #" stop
      before the ':' of any other reading as a label ending in `: b`. */
  lemma DigitsEndAtColon(r: string, a: string, b: string)
    requires 9 + |a| <= |r| && AllDigits(r[6..|r| - |a| - 2])
    requires 9 + |b| <= |r| && r[|r| - |b| - 2..] == ": " + b
    ensures |b| <= |a|
  {
    var m := |r| - |a| - 2;
    forall j | 6 <= j < m ensures IsDigit(r[j]) {
      assert r[j] == r[6..m][j - 6];
    }
    assert r[|r| - |b| - 2] == (": " + b)[0] == ':';
  }
}
