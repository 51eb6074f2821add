/** The window as the progress layer sees it: the text of the fields it
    reads and clears, the error line, the progress bar and its label, and a
    record of what every redraw put on screen (run-gui.py). */
module Ui {

  /** What one redraw showed: the bar's value and the label's text. */
  datatype Frame = Frame(progress: int, caption: string)

  /** The modelled state of the window, as one value. */
  datatype WindowState = WindowState(
    inputs: string, output: string, maxDistortion: string, nSteps: string,
    error: string, errorColor: string,
    caption: string, captionVisible: bool,
    progress: int, progressVisible: bool,
    frames: seq<Frame>)

  // The keys of the layout's elements.
  const INPUTS_KEY: string := "-INPUTS-"
  const OUTPUT_KEY: string := "-OUTPUT-"
  const MAXDISTORTION_KEY: string := "-MAXDISTORTION-"
  const NSTEPS_KEY: string := "-NSTEPS-"
  const PBARLABEL_KEY: string := "-PBARLABEL-"
  const ERROR_KEY: string := "-ERROR-"

  /** `window[key].update(value=text)` on a text element. A key the layout
      does not define changes nothing that is modelled. */
  function WithText(w: WindowState, key: string, text: string): (r: WindowState)
  {
    if key == INPUTS_KEY then w.(inputs := text)
    else if key == OUTPUT_KEY then w.(output := text)
    else if key == MAXDISTORTION_KEY then w.(maxDistortion := text)
    else if key == NSTEPS_KEY then w.(nSteps := text)
    else if key == PBARLABEL_KEY then w.(caption := text)
    else if key == ERROR_KEY then w.(error := text)
    else w
  }

  /** An update through a key the layout does not define is lost. */
  lemma UndefinedKeyIgnored(w: WindowState, text: string)
    ensures WithText(w, "-OUTPUTS-", text) == w
  {
  }

  /** The window's elements. Each method changes only the fields its
      `modifies` clause names; the rest stay as they were. */
  class Window {
    var inputs: string
    var output: string
    var maxDistortion: string
    var nSteps: string
    var error: string
    var errorColor: string
    var caption: string
    var captionVisible: bool
    var progress: int
    var progressVisible: bool
    var frames: seq<Frame>

    function State(): WindowState
      reads this
    {
      WindowState(inputs, output, maxDistortion, nSteps, error, errorColor,
                  caption, captionVisible, progress, progressVisible, frames)
    }

    /** The window as the layout creates it. */
    constructor ()
      ensures State() == WindowState("", "", "80", "20", "", "", "", false, 0, false, [])
    {
      inputs, output, maxDistortion, nSteps := "", "", "80", "20";
      error, errorColor := "", "";
      caption, captionVisible := "", false;
      progress, progressVisible := 0, false;
      frames := [];
    }

    method UpdateText(key: string, text: string)
      modifies this`inputs, this`output, this`maxDistortion, this`nSteps, this`caption, this`error
      ensures State() == WithText(old(State()), key, text)
    {
      if key == INPUTS_KEY {
        inputs := text;
      } else if key == OUTPUT_KEY {
        output := text;
      } else if key == MAXDISTORTION_KEY {
        maxDistortion := text;
      } else if key == NSTEPS_KEY {
        nSteps := text;
      } else if key == PBARLABEL_KEY {
        caption := text;
      } else if key == ERROR_KEY {
        error := text;
      }
    }

    /** `window["-PBARLABEL-"].update(value=text)`. */
    method UpdateCaption(text: string)
      modifies this`caption
      ensures caption == text
    {
      caption := text;
    }

    /** `window["-ERROR-"].update(value=text, text_color=color)`. */
    method ShowError(text: string, color: string)
      modifies this`error, this`errorColor
      ensures error == text && errorColor == color
    {
      error, errorColor := text, color;
    }

    /** `window["-PBAR-"].update(current_count=count)`. */
    method UpdateBar(count: int)
      modifies this`progress
      ensures progress == count
    {
      progress := count;
    }

    method SetBarVisible(visible: bool)
      modifies this`progressVisible
      ensures progressVisible == visible
    {
      progressVisible := visible;
    }

    method SetCaptionVisible(visible: bool)
      modifies this`captionVisible
      ensures captionVisible == visible
    {
      captionVisible := visible;
    }

    /** `window.refresh()`: the user now sees the bar and the label. */
    method Refresh()
      modifies this`frames
      ensures frames == old(frames) + [Frame(progress, caption)]
    {
      frames := frames + [Frame(progress, caption)];
    }
  }
}
