/** InputForm (src/components/generate/InputForm.tsx): the text cell, its error cell and the
    submit handler that guards onSubmit with the length rule. */
module InputForm {
  import opened Wrappers
  import opened Json
  import opened Strings
  import opened Http
  import CharacterCounter
  import GenerationSchema

  const MinChars := 1000
  const MaxChars := 10000
  const TooShort := "Please enter at least 1000 characters"
  const TooLong := "Text cannot exceed 10000 characters"

  predicate IsValid(text: string) {
    MinChars <= |text| <= MaxChars
  }

  /** The message an invalid submit shows. */
  function InvalidMessage(text: string): (m: string)
    ensures |text| < MinChars ==> m == TooShort
    ensures |text| >= MinChars ==> m == TooLong
  {
    if |text| < MinChars then TooShort else TooLong
  }

  /** The button is disabled when the text is invalid or a generation is running. */
  predicate SubmitDisabled(text: string, isLoading: bool) {
    !IsValid(text) || isLoading
  }

  /** The form's rule is the counter's rule with the form's bounds. */
  lemma CounterAgrees(text: string)
    ensures IsValid(text) <==> !CharacterCounter.Render(|text|, MinChars, MaxChars).destructive
  {
  }

  /** The GenerateFlashcardsCommand sent: only the text. */
  function CommandToJson(text: string): (j: Json)
    ensures Get(j, "input_text") == Some(JString(text)) && Get(j, "number_of_cards").None?
  {
    JObject([("input_text", JString(text))])
  }

  /** A text the form lets through passes the server's schema with the default card count. */
  lemma SubmittedTextAccepted(text: string)
    requires IsValid(text)
    ensures GenerationSchema.ParseGenerate(CommandToJson(text)) ==
              Success(GenerationSchema.GenerateInput(Trim(text), GenerationSchema.DefaultCardCount))
  {
    GenerationSchema.TextOnly(text);
  }

  /** The form's bounds are the server's. */
  lemma BoundsAgree(text: string)
    ensures IsValid(text) <==> GenerationSchema.TextMessages(text) == []
  {
  }

  class Form {
    var inputText: string
    var error: Option<string>

    constructor()
      ensures inputText == "" && error.None?
    {
      inputText, error := "", None;
    }

    method SetInputText(text: string)
      modifies this
      ensures inputText == text && error == old(error)
    {
      inputText := text;
    }

    /** handleSubmit. The error is cleared first; an invalid text sets its message and sends
        nothing; otherwise the text is sent and cleared once onSubmit resolves (`outcome`), while a
        rejection is swallowed and keeps the text. */
    method HandleSubmit(outcome: Result<(), Thrown>) returns (sent: Option<string>)
      modifies this
      ensures sent.Some? <==> IsValid(old(inputText))
      ensures sent.Some? ==> sent.value == old(inputText) && error.None?
      ensures sent.None? ==> error == Some(InvalidMessage(old(inputText))) && inputText == old(inputText)
      ensures sent.Some? && outcome.Success? ==> inputText == ""
      ensures sent.Some? && outcome.Failure? ==> inputText == old(inputText)
    {
      error := None;
      if !IsValid(inputText) {
        error := Some(InvalidMessage(inputText));
        return None;
      }
      sent := Some(inputText);
      if outcome.Success? {
        inputText := "";
      }
    }
  }
}
