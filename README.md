# PyDiffeomorph progress layer, modelled in Dafny

PyDiffeomorph's desktop front end (`run-gui.py`) runs the `diffeomorphic`
image pipeline on the files named in its input field. It reports progress
by replacing four stage functions of the library with `ProgressUpdater`
objects for the length of one run:

- `DiffeoImage.__init__`, `DiffeoImage._getdiffeo` and
  `DiffeoImage._interpolate_image` run once per file, with weights 5, 25 and 65;
- `DiffeoImageDir.save` runs once per batch, with weight 5.

Each wrapper adds its integer share of the weight to a progress counter that
all wrappers share. It shows that value on the bar, together with a label
(`File #k: ...` for the per-file stages), redraws the window, and then
forwards the call unchanged. The Run handler:

1. refuses a run when either path field is empty;
2. splits the input field on `;` to size the increments;
3. installs the wrappers and runs the pipeline;
4. reports a missing file or forces the bar to 100 on success;
5. in a `finally` block, hides the bar, tries to unwrap the four attributes (see Findings) and resets the shared counter.

A separate handler cuts a non-digit last character off the max-distortion
and step-count fields.

The modules follow that structure:

- `Text` (`text.dfy`): Python's one-character `split` and `join`, and the
  decimal rendering of the file number in a label.
- `Progress` (`progress.dfy`): the increment arithmetic, the four weights and
  the label text.
- `Fields` (`fields.dfy`): validation of the two path fields, the file count
  and the digit filter.
- `Ui` (`ui.dfy`): a `Window` class with the modelled element values.
  `frames` records what every `refresh()` put on screen.
- `Instrument` (`instrument.dfy`):
  - `Callable` is the value an attribute holds: a library function, a
    wrapper around another value, or the partial that `__get__` binds to a
    wrapper.
  - `ProgressCounter` is the class attribute `current_progress`.
  - `ProgressUpdater` is a class with a mutable `fileCount`. Its `Call` is
    proved against the library behaviour and against the frame it shows.
- `Diffeo` (`diffeo.dfy`):
  - `Library` is the table of the five attributes.
  - The pipeline is the sequence of calls it makes: the batch constructor,
    three calls per file, then the save. `RunDiffeomorph` makes these calls
    through the table until one raises.
  - `Replay` is a value-level account of what a sequence of calls does to
    the counter, the wrappers' file numbers and the screen.
- `Stages` (`stages.dfy`): the frames a complete run shows through a table
  wrapped as the Run handler wraps it, computed in closed form
  (`RunFrames`).
- `RunHandler` (`run_handler.dfy`): install, restore, the Run handler
  (`OnRun`) and the digit-field handler.

`OnRun` follows the code as written. Its `finally` block writes
`DiffeoImageDir.__init__` back into `DiffeoImage.__init__`. It reads the
other three attributes through their class, and `ProgressUpdater.__get__`
then hands back a `functools.partial` bound to the updater. `inspect.unwrap`
cannot see through that partial, so those attributes stay wrapped after the
run. The value an attribute holds is a `Callable`, which has three cases: a
library function, an updater (`Wrapped`), and such a partial (`Bound`). The
corrected restore is modelled beside the code as written; see Findings.

## Model

| member | source | states |
|---|---|---|
| Progress.Increment | run-gui.py:52-60 | per-file stages add `floor(stage_progress / num_files)`, batch stages add `stage_progress`; never negative and never above the weight |
| Progress.PerFileContributionExact | run-gui.py:57-60 | n calls of a per-file stage add at most its weight and less than n below it, and exactly the weight iff n divides it |
| Progress.ConfiguredTotalBounded | run-gui.py:186-222 | with weights 5, 25, 65 per file and 5 per batch, a complete run from 0 reaches at most 100, and exactly 100 iff there are 1 or 5 files |
| Progress.SmallFileCounts | run-gui.py:186-222 | the bar before completion is forced stands at 100, 97, 95, 97, 100 for 1 to 5 files |
| Progress.TwoFileScenario | run-gui.py:186-222 | with two files the increments are 2, 12, 32 and 5, and the bar ends at 97 |
| Progress.FileLabelParts | run-gui.py:76 | the per-file label is `File #`, then digits that read back as the file number, then `: ` and the stage label |
| Progress.DisplayLabelEnds | run-gui.py:73-79 | the label a call shows always ends with the stage label, and is that label alone exactly when the stage runs once per batch |
| Progress.FileLabelInjective | run-gui.py:73-77 | `File #k: label` determines both k and the label |
| Text.DecimalString | run-gui.py:76 | the f-string rendering of the file number is a non-empty digit string without a leading zero |
| Text.ParseDecimalString | run-gui.py:76 | reading the rendered file number back gives the number |
| Text.Split | run-gui.py:176 | `str.split(";")` always yields at least one piece |
| Text.SplitLength | run-gui.py:176 | the split has one more piece than the input has `;` characters |
| Text.SplitPiecesFree | run-gui.py:176 | no piece contains the separator |
| Text.JoinSplit | run-gui.py:176 | joining the pieces with `;` gives back the field |
| Fields.Validate | run-gui.py:150-168 | both fields empty, only inputs empty and only output empty each give their own message; the run proceeds iff both are non-empty |
| Fields.FileCount | run-gui.py:176-183 | `num_files` is the number of `;` plus one, so at least 1 and the division is defined |
| Fields.DigitFilterAsWritten | run-gui.py:139-144 | a non-digit last character is cut off, a digit keeps the field, and an empty field raises IndexError |
| Fields.EmptyFieldRaises | run-gui.py:140 | the filter raises on an emptied field |
| Fields.DigitFilter | run-gui.py:139-144 | the corrected filter never raises, keeps an empty field, and agrees with the code on every non-empty field |
| Fields.FilterKeepsDigits | run-gui.py:139-144 | appending one character at the end of a digit-only field leaves it digit-only: the old text, or the old text plus the typed digit |
| Fields.NonDigitInsideKept | run-gui.py:139-144 | a non-digit typed inside the field (`"8a0"`) is kept, so the field is no longer digit-only |
| Fields.DigitsOnly | run-gui.py:138-144 | the corrected filter drops every non-digit: its result is digits only, no longer than the field, and a digit-only field is kept as it is |
| Fields.InsertKeepsDigits | run-gui.py:138-144 | text typed or pasted anywhere into a digit-only field leaves the old digits around the new text's digits |
| Fields.DigitsOnlyAgreesOnAppend | run-gui.py:139-144 | on an append of one character to a digit-only field, the corrected filter and the code give the same text |
| Ui.UndefinedKeyIgnored | run-gui.py:237 | an update through `-OUTPUTS-`, a key the layout does not define, changes nothing modelled |
| Ui.Window.constructor | run-gui.py:96-128 | the layout starts with empty path fields, "80" and "20" in the number fields, and the bar and label hidden |
| Ui.Window.UpdateText | run-gui.py:236-238 | `window[key].update(value=...)` changes only the element the key names |
| Ui.Window.ShowError | run-gui.py:151-154 | the error line gets the text and the colour |
| Ui.Window.Refresh | run-gui.py:84 | a redraw appends the bar's value and the label to what was shown |
| Ui.Window.UpdateBar | run-gui.py:69-71 | `update(current_count=...)` sets the bar's value and changes nothing else |
| Ui.Window.UpdateCaption | run-gui.py:81 | `update(value=...)` on the label sets its text and changes nothing else |
| Ui.Window.SetBarVisible | run-gui.py:173 | `update(visible=...)` on the bar sets whether it is shown and changes nothing else |
| Ui.Window.SetCaptionVisible | run-gui.py:174 | `update(visible=...)` on the label sets whether it is shown and changes nothing else |
| Instrument.Unwrap | run-gui.py:45 | `inspect.unwrap` follows `__wrapped__` through the updaters and stops at a library function or at a partial from `__get__`; it reaches a library function iff no partial is on the way, and leaves a library function unchanged |
| Instrument.UnwrapThrough | run-gui.py:45 | unwrapping a wrapper is unwrapping what it wraps |
| Instrument.ProgressCounter.constructor | run-gui.py:24-25 | the shared progress starts at 0 |
| Instrument.ProgressUpdater.Reset | run-gui.py:27-32 | `reset()` sets the shared progress to 0 |
| Instrument.ProgressUpdater.constructor | run-gui.py:34-60 | the wrapper keeps the wrapped value, label, mode and window; its increment is `Increment(...)`, its file count starts at 1 in per-file mode, and unwrapping it reaches what the wrapped value reaches |
| Instrument.ProgressUpdater.Call | run-gui.py:62-88 | a call adds the increment to the shared progress without a clamp, shows it on the bar with `File #k: label` (k the count before the call, which then goes up by one) or the plain label, redraws, and returns or raises exactly what the library function does with the same arguments |
| Instrument.Invoke | run-gui.py:84-88 | calling an attribute's value reaches the library function under all wrappers, adding the sum of their increments and one frame per wrapper, and the first new frame, drawn by the outermost wrapper before it calls inward, shows the progress plus its own increment and its label |
| Diffeo.Trace | run-gui.py:227-234 | the pipeline makes 3 calls per input file plus the batch constructor and the save |
| Diffeo.Completed | run-gui.py:227-234 | the calls before the first raising one all return, and the next one raises |
| Diffeo.Advance | run-gui.py:62-84 | the value-level effect of one call keeps the set of wrappers that count files; `AdvanceStep` states the rest |
| Diffeo.AdvanceStep | run-gui.py:62-84 | a call through a wrapper adds its increment and appends one frame with the new progress and its label, numbered per file with the count from before the call, which then goes up by one; a direct call changes nothing |
| Diffeo.Replay | run-gui.py:62-84 | the effect of a sequence of calls, one `Advance` at a time, keeps every wrapper of the table counted |
| Diffeo.ReplayFrames | run-gui.py:62-84 | a sequence of calls only appends frames, at most one per call |
| Diffeo.RunDiffeomorph | run-gui.py:227-234 | the run ends as `Outcome` says: all calls are made, or the first error raised is raised on. The counter, file numbers and screen are those of `Replay` over the calls made, and the bar and label show the last frame drawn (or what they showed before, if nothing was drawn) |
| Diffeo.RunCalls | run-gui.py:227-234 | the calls are made in order until one raises; after each call the heap agrees with `Replay`, and the bar and label agree with the last frame drawn |
| Diffeo.CallWrapper | run-gui.py:62-88 | one call through a wrapper returns what the library function returns, advances `Replay` by one step, and leaves the bar at the shared progress and the label at the frame just drawn |
| Diffeo.ReplayProgress | run-gui.py:67-70 | after any calls, the shared progress is the one the last frame showed, or the starting value if none was shown |
| Stages.PlanOf | run-gui.py:186-222 | every wrapped attribute gets its weight and label; only the save stage is not per-file |
| Stages.Planned | run-gui.py:186-222 | the three per-file increments for n files |
| Stages.ConfiguredStages | run-gui.py:186-222 | a table wrapped as the Run handler wraps it has exactly the planned per-file stages |
| Stages.ExpectedFilesAt | run-gui.py:68-81 | the x-th per-file frame shows file number k + x/3 with the label of stage x mod 3, at the progress gained so far |
| Stages.FilesBounded | run-gui.py:67-68 | every per-file frame lies between the starting progress and that plus what the files gain |
| Stages.CompleteRun | run-gui.py:62-88 | a complete run through the wrapped table adds `ConfiguredTotal(n)` to the shared progress and shows exactly `RunFrames` |
| Stages.TotalIsGained | run-gui.py:186-222 | the configured total is what the files gain plus the save weight |
| Stages.ReplayPrefix | run-gui.py:67-68 | a run cut short has shown a prefix of what the whole run shows, and the bar never went back |
| RunHandler.Restored | run-gui.py:250-251 | the intended restore unwraps the value each attribute holds in its class, so no updater is left; the result is a library function iff there is no partial under it |
| RunHandler.RestoredUndoesInstall | run-gui.py:250-257 | the intended restore gives back exactly the table from before the install, however deep the wrappers |
| RunHandler.RestoredAsWritten | run-gui.py:252-257 | the restore as written keeps the attributes of the table; it reads `DiffeoImageDir.__init__` for line 252 and each other attribute through its class (`__get__`, run-gui.py:90-91) |
| RunHandler.ClassRead | run-gui.py:90-91 | reading an attribute that holds an updater through its class gives a partial bound to that updater, with the same layers under it; anything else is read as it is |
| RunHandler.AsWrittenKeepsWrappers | run-gui.py:252-257 | the restore as written puts the batch constructor in `DiffeoImage.__init__` and leaves every other wrapped attribute holding a partial bound to its outermost updater; unwrapped ones keep their function |
| RunHandler.AsWrittenUnwrapped | run-gui.py:250-257 | the table left by the restore as written is free of wrappers iff none of `_getdiffeo`, `_interpolate_image` and `save` was wrapped |
| RunHandler.AsWrittenAfterRun | run-gui.py:185-257 | after the Run handler's install, the restore as written leaves the three attributes bound to the run's updaters, so the table is not unwrapped |
| RunHandler.AsWrittenLosesImageInit | run-gui.py:252 | from the library's own table, the restore as written does not give that table back |
| RunHandler.Install | run-gui.py:185-222 | the four stage attributes get fresh, distinct wrappers with weights 5, 25, 65 (per file) and 5 (per batch), the labels, and the file count 1; `DiffeoImageDir.__init__` is left alone |
| RunHandler.InstalledTable | run-gui.py:185-222 | the installed table is what the pipeline can run through: wrappers one layer deep on the old functions, with the planned increments and labels and every file count at 1 |
| RunHandler.Prepare | run-gui.py:185-222 | after install, the table is configured for n files, each stage attribute holds a newly created updater, and each attribute still reaches its old library function |
| RunHandler.RestoreAsWritten | run-gui.py:250-257 | the finally block's reassignments as written: the new table is `RestoredAsWritten` of the old one |
| RunHandler.Restore | run-gui.py:250-257 | the reassignments as intended: each attribute from its own unwrapped value |
| RunHandler.CompletedByRoots | run-gui.py:84-88 | whether each call raises does not depend on the wrappers |
| RunHandler.OutcomeByRoots | run-gui.py:84-88 | the instrumented run ends as the bare run does, after as many calls |
| RunHandler.RunShown | run-gui.py:62-88 | a run shows a prefix of the frames of a complete run, and all of them when it finishes |
| RunHandler.RunOnScreen | run-gui.py:224-234 | the same, for the window's frames and the bare table's outcome. The shared progress stays between its start and start plus the configured total; on success it reaches that total, and the last frame is the save stage at that value |
| RunHandler.RunProgress | run-gui.py:186-222 | over the calls a run makes, the progress never leaves [start, start + total]; a finished run ends at start + total with the save frame last |
| RunHandler.Reported | run-gui.py:235-243 | only FileNotFoundError is caught; success is reported as such; any other error escapes |
| RunHandler.Execute | run-gui.py:185-234 | install and run. The result is the bare pipeline's, and the table holds newly created one-layer wrappers over the old functions, configured for n files. The window shows a prefix of `RunFrames`, all of it on success. The shared counter ends between its start and start plus the configured total, and at that total on success. The bar and label show the last frame drawn (on success the save stage at that value), or what they showed before |
| RunHandler.Report | run-gui.py:235-243 | a missing file blanks the input field and shows the error; success shows 100 and the closing label in one redraw; otherwise the bar, label, frames, error line and fields are unchanged |
| RunHandler.Attempt | run-gui.py:224-243 | the try block with its except and else branches. The outcome is the reported bare outcome, and the table holds newly created wrappers over the old one. A missing file blanks the input field. The frames are `RunFrames` plus `(100, "Diffeomorphing complete!")` on success, else a prefix of `RunFrames`. The shared counter reaches the configured total on success and stays within it otherwise. On success the bar shows 100 with the closing label; otherwise it shows the last frame drawn |
| RunHandler.Cleanup | run-gui.py:244-259 | the bar is zeroed and hidden, the label blanked and hidden, the attributes restored as written, and the shared progress 0 |
| RunHandler.Launch | run-gui.py:185-259 | whatever the pipeline does, the finally block runs: counter 0, bar and label hidden, the outcome is the bare pipeline's, and the table is what the restore as written leaves (`DiffeoImage.__init__` holding the batch constructor, the other three bound to updaters created by this run around their old functions) |
| RunHandler.Finally | run-gui.py:244-259 | after a run's install, the finally block zeroes and hides the bar, blanks and hides the label, resets the counter, and leaves the table `LeftAsWritten` describes, each of the other three attributes bound to exactly the updater it held during the run |
| RunHandler.CleanupIntended | run-gui.py:244-259 | the finally block with each attribute restored from its own unwrapped value |
| RunHandler.LaunchIntended | run-gui.py:185-259 | with the corrected restore, the attribute table after a run is exactly the table before it, whatever the outcome; the window ends as in `Launch`: the same frames (the whole run and the done frame on success, a prefix otherwise), a missing file blanks the input field and shows the not-found message, and the other fields are unchanged |
| RunHandler.ShowRunStarted | run-gui.py:170-174 | the error line is cleared and the bar is shown at 0 with its label |
| RunHandler.OnRun | run-gui.py:146-259 | a refused run changes only the error line. Otherwise, after the run: the outcome is the bare pipeline's on the `;`-split inputs, the counter is 0, and the bar and label are hidden. The table is as the restore as written leaves it, with the three attributes bound to updaters this run created, and a missing file blanks only the input field. The frames shown are those of a complete run followed by `(100, "Diffeomorphing complete!")` on success, or a prefix of them |
| RunHandler.RunFramesBounded | run-gui.py:186-222 | every frame of a run lies between its start and start plus the configured total, which is at most 100; the save frame shows the full total |
| RunHandler.OnDigitFieldEvent | run-gui.py:138-144 | the edited field is filtered as written, and a replacement changes that field only |

## Left out

- Window layout, `window.read()`, the event loop, closing the window and
  `sleep(2)`. The model covers one event at a time on a `Window` object
  that holds the modelled element values.
- Instrument.Invoke: the `print(*args, **kwargs)` of run-gui.py:86 is left
  out as an effect on the console. It also passes on the library call's
  keyword arguments, and any keyword other than `sep`, `end`, `file` or
  `flush` would make it raise TypeError before the library function is
  reached. The model assumes the library passes no such keyword to a
  wrapped attribute, so every call through a wrapper reaches the library
  function.
- Progress.Increment: run-gui.py:60 divides with float division and then
  takes the floor. This equals the exact integer quotient (Dafny's `/` on
  a positive divisor) only while both operands are below 2^53. The
  configured weights 5, 25, 65 and 5 always are, and a file count that
  large is not modelled.
- Visibility and value are separate methods in the model. One
  `update(current_count=..., visible=...)` is modelled as two calls.
  `frames` records only `refresh()`.
- The `diffeomorphic` library is not part of this model. What each library
  function returns or raises is the `behaviour` parameter.
  - The numeric and flag arguments are not passed.
  - A library that itself calls a wrapped attribute more or less often is
    not modelled.
- Diffeo.Trace: the order of the calls `run_diffeomorph` makes is an
  assumption about the library, whose code is not part of this model. The
  assumed order is the batch constructor first, each file's three stages
  before the next file's, and the save last. Every statement about the
  frames of a run rests on it: `Stages.RunFrames`, `CompleteRun`,
  `RunShown`, `RunOnScreen`, `Execute`, `Attempt`, `Launch` and `OnRun`.
- `pathlib.Path` conversion of the inputs and output. Paths are kept as
  strings.
- OnRun: the `int()` parsing of the max-distortion and step-count fields
  (run-gui.py:178-179) is not modelled, and `OnRun` treats both fields as
  parsing. A ValueError there would come after the error line is cleared
  and the bar is shown (run-gui.py:171-174), outside the `try`, and would
  end the event loop. The digit filter lets such text through (see
  Findings).
- FilterKeepsDigits: covers only one character appended at the end of the
  field. A non-digit typed in the middle or pasted is kept by the code
  (`NonDigitInsideKept`). `InsertKeepsDigits` covers those edits for the
  corrected filter.
- Ui.UndefinedKeyIgnored: PySimpleGUI's handling of the unknown key
  `-OUTPUTS-` depends on its version and settings. It may print a warning,
  open a popup, or guess the closest key `-OUTPUT-` and blank the output
  field. The model takes the first reading, so the update changes nothing.
  Report, Attempt, Launch and OnRun therefore promise that a missing file
  leaves the output field as it was. Under key guessing the output field
  would be blanked as well.
- `ProgressUpdater.__get__` is modelled only where the finally block reads
  an attribute through its class (`ClassRead`). The binding of an updater
  to a `DiffeoImage` instance when the library calls it as a method is
  modelled as a direct call with the same arguments.
- OnRun, Launch: a call through a partial left by an earlier run is not
  modelled. It would pass an extra leading `None`, and the old updater
  would count progress a second time with its stale file number.
  `OnRun` therefore requires a table with no wrapper, which the first run
  of a session has. After that run, the table holds partials
  (`AsWrittenAfterRun`), so a second run is outside the model.
- Unicode handling of `str.split`. Strings are sequences of characters.
- `RunDiffeomorph` requires every attribute at most one wrapper deep and
  free of partials, as the Run handler installs them.
  `ProgressUpdater.Call` and `Invoke` handle any depth, but for a chain of
  more than one wrapper `Invoke` states the sum of the increments, the
  number of frames and the content of the outermost frame only, not the
  content of the inner frames.
- Execute: the installed wrappers' file numbers after the run are not
  stated. `RunDiffeomorph` ties them to `Replay`, and
  `Stages.CompleteRun` gives their values for a complete run.

## Findings

| source | as written | input that shows it | evidently intended | confidence | as-written member | corrected member |
|---|---|---|---|---|---|---|
| run-gui.py:252 | `DiffeoImage.__init__ = unwrap(diffeo.DiffeoImageDir.__init__)` | any run, then a second run: `DiffeoImage.__init__` now holds `DiffeoImageDir.__init__` (consistent with the comment at run-gui.py:226) | take the wrappers off the value stored in the attribute itself, `inspect.unwrap(vars(diffeo.DiffeoImage)["__init__"])`; reading it through the class would meet `__get__` as in the last row | not executed | RunHandler.AsWrittenLosesImageInit | RunHandler.RestoredUndoesInstall |
| run-gui.py:140, 143 | `values[key][-1]` read without checking the field is non-empty | deleting the last character of the max-distortion field (field `""`) raises IndexError | leave an empty field alone | not executed | Fields.EmptyFieldRaises | Fields.FilterKeepsDigits |
| run-gui.py:138-144, 178-179 | only the last character is tested | typing `a` between the digits of `80` (field `"8a0"`) is kept, and `int("8a0")` then raises ValueError outside the `try` | only digits in the field, as the comment at line 138 says | not executed | Fields.NonDigitInsideKept | Fields.InsertKeepsDigits |
| run-gui.py:90-91, 253-257 | `unwrap(diffeo.DiffeoImage._getdiffeo)` and the two lines after it read the attribute through the class, which calls `__get__` and yields a `functools.partial` with no `__wrapped__` | any completed or failed run: afterwards `_getdiffeo`, `_interpolate_image` and `save` still hold partials bound to that run's updaters, and the next run wraps them again | take each wrapper off the value stored in the class (for example `inspect.unwrap(vars(diffeo.DiffeoImage)["_getdiffeo"])`), so that the next run starts from the library's own functions | not executed | RunHandler.AsWrittenAfterRun | RunHandler.RestoredUndoesInstall |
