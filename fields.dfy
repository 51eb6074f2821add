/** The rules the Run handler applies to the text fields of the window
    before anything is instrumented (run-gui.py). */
module Fields {
  import opened Text

  const BOTH_MISSING: string :=
    "ERROR: One or more files/folders must be supplied as an input; exactly one folder must be supplied as an output"
  const INPUTS_MISSING: string := "ERROR: One or more files/folders must be supplied as an input"
  const OUTPUT_MISSING: string := "ERROR: Exactly one folder must be supplied as an output"

  /** Either the run goes ahead, or it is refused with a message for the
      error line. */
  datatype Validation = Proceed | Refuse(message: string)

  /** The choice the Run handler makes from whether the input and output
      fields are empty (an empty string is falsy). */
  function Validate(inputs: string, output: string): (v: Validation)
    ensures v == Proceed <==> inputs != "" && output != ""
    ensures v == Refuse(BOTH_MISSING) <==> inputs == "" && output == ""
    ensures v == Refuse(INPUTS_MISSING) <==> inputs == "" && output != ""
    ensures v == Refuse(OUTPUT_MISSING) <==> inputs != "" && output == ""
  {
    if inputs == "" && output == "" then Refuse(BOTH_MISSING)
    else if inputs == "" then Refuse(INPUTS_MISSING)
    else if output == "" then Refuse(OUTPUT_MISSING)
    else Proceed
  }

  /** The number of files a run is sized by: the pieces of the input field
      split on ';'. */
  function FileCount(inputs: string): (n: nat)
    ensures n == Count(inputs, ';') + 1
    ensures n >= 1
  {
    SplitLength(inputs, ';');
    |Split(inputs, ';')|
  }

  /** What the digit filter does to a field after an edit event. */
  datatype FieldEdit =
    | Keep                      // the field is left as it is
    | Replace(text: string)     // the field is set to `text`
    | IndexError                // `value[-1]` on an empty string raises

  /** The filter on the max-distortion and step-count fields as written:
      if the last character is not a digit it is cut off. It reads the last
      character without first checking that there is one. */
  function DigitFilterAsWritten(field: string): (e: FieldEdit)
    ensures e == IndexError <==> field == ""
    ensures field != "" && IsDigit(field[|field| - 1]) ==> e == Keep
    ensures field != "" && !IsDigit(field[|field| - 1]) ==> e == Replace(field[..|field| - 1])
  {
    if field == [] then IndexError
    else if IsDigit(field[|field| - 1]) then Keep
    else Replace(field[..|field| - 1])
  }

  /** Emptying a field by deleting its last character raises instead of
      being accepted. */
  lemma EmptyFieldRaises()
    ensures DigitFilterAsWritten("") == IndexError
  {
  }

  /** The filter as evidently intended: an empty field is left alone. */
  function DigitFilter(field: string): (e: FieldEdit)
    ensures e != IndexError
    ensures field == "" ==> e == Keep
    ensures field != "" ==> e == DigitFilterAsWritten(field)
  {
    if field == [] then Keep else DigitFilterAsWritten(field)
  }

  /** The text of the field after the filter has run. */
  function Filtered(field: string): (r: string)
  {
    match DigitFilter(field)
    case Replace(t) => t
    case _ => field
  }

  /** The filter keeps a digit-only field digit-only when one character is
      typed at a time: whatever is appended to digits, what remains is
      digits, and it is the old text or the old text plus the new digit. */
  lemma {:induction false} FilterKeepsDigits(before: string, typed: string)
    requires AllDigits(before) && |typed| <= 1
    ensures AllDigits(Filtered(before + typed))
    ensures Filtered(before + typed) == before
            || (|typed| == 1 && IsDigit(typed[0]) && Filtered(before + typed) == before + typed)
  {
    var field := before + typed;
    if typed != [] {
      assert field[|field| - 1] == typed[0];
      assert field[..|field| - 1] == before;
    } else {
      assert field == before;
    }
  }

  /** The filter tests only the last character, so a non-digit typed or
      pasted anywhere else stays in the field, and the `int()` of the Run
      handler then fails on it. */
  lemma NonDigitInsideKept()
    ensures DigitFilterAsWritten("8a0") == Keep
    ensures Filtered("8a0") == "8a0" && !AllDigits("8a0")
  {
    assert !IsDigit("8a0"[1]);
  }

  /** The filter as the comment over it means it: only digits are allowed,
      so every character that is not one is dropped, wherever it is. */
  function DigitsOnly(field: string): (r: string)
    ensures AllDigits(r) && |r| <= |field|
    ensures AllDigits(field) ==> r == field
    decreases |field|
  {
    if field == [] then []
    else (if IsDigit(field[0]) then [field[0]] else []) + DigitsOnly(field[1..])
  }

  lemma {:induction false} DigitsOnlyConcat(a: string, b: string)
    ensures DigitsOnly(a + b) == DigitsOnly(a) + DigitsOnly(b)
    decreases |a|
  {
    if a == [] {
      assert a + b == b;
    } else {
      assert (a + b)[0] == a[0];
      assert (a + b)[1..] == a[1..] + b;
      DigitsOnlyConcat(a[1..], b);
    }
  }

  /** Whatever is typed or pasted at any place of a digit-only field, the
      corrected filter leaves the old digits in their places with the
      digits of the new text between them. */
  lemma InsertKeepsDigits(prefix: string, typed: string, suffix: string)
    requires AllDigits(prefix + suffix)
    ensures DigitsOnly(prefix + typed + suffix) == prefix + DigitsOnly(typed) + suffix
  {
    assert AllDigits(prefix) by {
      forall i | 0 <= i < |prefix| ensures IsDigit(prefix[i]) {
        assert prefix[i] == (prefix + suffix)[i];
      }
    }
    assert AllDigits(suffix) by {
      forall i | 0 <= i < |suffix| ensures IsDigit(suffix[i]) {
        assert suffix[i] == (prefix + suffix)[|prefix| + i];
      }
    }
    DigitsOnlyConcat(prefix + typed, suffix);
    DigitsOnlyConcat(prefix, typed);
  }

  /** On the edits the filter as written handles, appending one character
      to a digit-only field, the corrected filter does the same. */
  lemma DigitsOnlyAgreesOnAppend(before: string, typed: string)
    requires AllDigits(before) && |typed| <= 1
    ensures DigitsOnly(before + typed) == Filtered(before + typed)
  {
    InsertKeepsDigits(before, typed, "");
    assert before + typed + "" == before + typed;
    FilterKeepsDigits(before, typed);
  }
}
