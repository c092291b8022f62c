/**
 How `process_user_input` turns what the user did into the recorded answer
 (main.py:215-227). When options are offered, a radio button lists them
 followed by an "Other" entry; choosing "Other" reads a free-text field instead.
 Without options (absent or an empty list, both falsy) only the free-text field
 is shown. The widget values are inputs here.
 */
module Answer {
  import opened Wrappers

  /** The label of the escape-hatch radio entry. */
  const OtherChoice := "Other"

  /** Python's truthiness of the options value: present and non-empty. */
  predicate Offered(options: Option<seq<string>>) {
    options.Some? && |options.value| > 0
  }

  /** The entries of the radio button: the options, then "Other". */
  function RadioEntries(options: seq<string>): (r: seq<string>)
    ensures OtherChoice in r
    ensures forall x :: x in options ==> x in r
    ensures forall x :: x in r ==> x in options || x == OtherChoice
  {
    options + [OtherChoice]
  }

  /**
   The recorded answer, given the radio button's `choice` and the text field's
   `freeText`. With options offered, a choice of one of them other than "Other"
   is the answer and "Other" yields the free text; without options the free text
   is the answer and `choice` is never read.
   */
  function Select(options: Option<seq<string>>, choice: string, freeText: string): (r: string)
    ensures Offered(options) && choice in options.value && choice != OtherChoice ==> r == choice
    ensures Offered(options) && choice == OtherChoice ==> r == freeText
    ensures !Offered(options) ==> r == freeText
    ensures r == freeText || (Offered(options) && r == choice && r != OtherChoice)
  {
    if Offered(options) then
      if choice == OtherChoice then freeText else choice
    else
      freeText
  }

  /**
   A radio choice always gives either the free text or one of the listed
   options, never the "Other" label itself (unless typed).
   */
  lemma SelectFromRadio(options: seq<string>, choice: string, freeText: string)
    requires |options| > 0 && choice in RadioEntries(options)
    ensures var r := Select(Some(options), choice, freeText);
      r == freeText || (r in options && r != OtherChoice)
  {
  }

  /**
   A listed option spelled "Other" cannot be recorded: picking that label is
   read as the escape hatch and records the free text, so a radio choice
   records the label only when the free text itself is "Other".
   */
  lemma OtherOptionShadowed(options: seq<string>, choice: string, freeText: string)
    requires OtherChoice in options && choice in RadioEntries(options)
    ensures Select(Some(options), OtherChoice, freeText) == freeText
    ensures Select(Some(options), choice, freeText) == OtherChoice ==> freeText == OtherChoice
  {
  }
}
