/** FlashcardCard (src/components/browse/FlashcardCard.tsx): the content check and the five state
    cells of the edit/save/cancel cycle. The confirm modal is reduced to its confirm step. */
module FlashcardCard {
  import opened Wrappers
  import opened Json
  import opened Types
  import opened Http
  import FlashcardSchema

  const TooShort := "Content must be at least 2 characters long"
  const TooLong := "Content must not exceed 200 characters"
  const SaveFailed := "Failed to save changes"

  function ValidateContent(content: string): (r: Option<string>)
    ensures r.None? <==> 2 <= |content| <= 200
    ensures |content| < 2 ==> r == Some(TooShort)
    ensures |content| > 200 ==> r == Some(TooLong)
  {
    if |content| < 2 then Some(TooShort)
    else if |content| > 200 then Some(TooLong)
    else None
  }

  /** The card's check and its messages are the server's content rule. */
  lemma AgreesWithServer(content: string)
    ensures ValidateContent(content).None? <==> FlashcardSchema.ContentMessages(content) == []
    ensures ValidateContent(content).Some? ==> FlashcardSchema.ContentMessages(content) == [ValidateContent(content).value]
  {
  }

  /** ValidationErrors: an optional message per field. */
  datatype Errors = Errors(front: Option<string>, back: Option<string>)

  const NoErrors := Errors(None, None)

  class Card {
    const flashcard: FlashcardDTO
    var isEditing: bool
    var frontContent: string
    var backContent: string
    var errors: Errors
    var isSubmitting: bool

    constructor(flashcard: FlashcardDTO)
      ensures this.flashcard == flashcard && !isEditing && !isSubmitting && errors == NoErrors
      ensures frontContent == flashcard.frontContent && backContent == flashcard.backContent
    {
      this.flashcard := flashcard;
      isEditing := false;
      frontContent, backContent := flashcard.frontContent, flashcard.backContent;
      errors := NoErrors;
      isSubmitting := false;
    }

    /** The edit dialog's onConfirm: edit mode with the stored content. */
    method ConfirmEdit()
      modifies this
      ensures isEditing && frontContent == flashcard.frontContent && backContent == flashcard.backContent
      ensures errors == old(errors) && isSubmitting == old(isSubmitting)
    {
      isEditing := true;
      frontContent := flashcard.frontContent;
      backContent := flashcard.backContent;
    }

    /** Typing into a field. */
    method SetContent(front: string, back: string)
      modifies this
      ensures frontContent == front && backContent == back
      ensures isEditing == old(isEditing) && errors == old(errors) && isSubmitting == old(isSubmitting)
    {
      frontContent, backContent := front, back;
    }

    /** handleSave. An invalid field blocks the call and both messages are shown (one may be
        empty); otherwise onEdit is called with the current content, and `outcome` is how it
        settles. The command passed to onEdit, if any, is returned. */
    method Save(outcome: Result<(), Thrown>) returns (sent: Option<UpdateCommand>)
      modifies this
      ensures frontContent == old(frontContent) && backContent == old(backContent)
      ensures sent.None? <==> ValidateContent(old(frontContent)).Some? || ValidateContent(old(backContent)).Some?
      ensures sent.None? ==>
                errors == Errors(ValidateContent(old(frontContent)), ValidateContent(old(backContent))) &&
                isEditing == old(isEditing) && isSubmitting == old(isSubmitting)
      ensures sent.Some? ==> sent.value == UpdateCommand(old(frontContent), old(backContent)) && !isSubmitting
      ensures sent.Some? && outcome.Success? ==> !isEditing && errors == NoErrors
      ensures sent.Some? && outcome.Failure? ==>
                isEditing == old(isEditing) && errors == Errors(Some(SaveFailed), Some(SaveFailed))
    {
      var frontError := ValidateContent(frontContent);
      var backError := ValidateContent(backContent);
      if frontError.Some? || backError.Some? {
        errors := Errors(frontError, backError);
        return None;
      }
      isSubmitting := true;
      sent := Some(UpdateCommand(frontContent, backContent));
      if outcome.Success? {
        isEditing := false;
        errors := NoErrors;
      } else {
        errors := Errors(Some(SaveFailed), Some(SaveFailed));
      }
      isSubmitting := false;
    }

    /** handleCancel: leave edit mode, clear the errors and restore the stored content. */
    method Cancel()
      modifies this
      ensures !isEditing && errors == NoErrors
      ensures frontContent == flashcard.frontContent && backContent == flashcard.backContent
      ensures isSubmitting == old(isSubmitting)
    {
      isEditing := false;
      errors := NoErrors;
      frontContent := flashcard.frontContent;
      backContent := flashcard.backContent;
    }
  }

  /** What a save sends always passes the server's update schema. */
  lemma SentUpdateAccepted(front: string, back: string)
    requires ValidateContent(front).None? && ValidateContent(back).None?
    ensures FlashcardSchema.ParseUpdate(UpdateToJson(UpdateCommand(front, back))) == Success(UpdateCommand(front, back))
  {
    var j := UpdateToJson(UpdateCommand(front, back));
    assert FlashcardSchema.ValidUpdateBody(j);
  }
}
