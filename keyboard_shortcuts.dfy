/** useLearnKeyboardShortcuts (src/hooks/useLearnKeyboardShortcuts.ts): the key handler as a
    choice of at most one callback. Registering and removing the listener is left out; an inactive
    hook registers nothing, so no key has any effect. */
module KeyboardShortcuts {
  import opened Wrappers
  import LearnSession

  datatype KeyEvent = KeyEvent(key: string, ctrlKey: bool, metaKey: bool)

  /** The callback a key press calls, if any. */
  datatype Shortcut = Flip | Next | Restart

  /** handleKeyDown's switch, behind the isActive guard. preventDefault is called exactly when a
      callback runs, so it needs no separate result. */
  function Dispatch(isActive: bool, e: KeyEvent): (r: Option<Shortcut>)
    ensures r == Some(Flip) <==> isActive && (e.key == " " || e.key == "Enter")
    ensures r == Some(Next) <==> isActive && (e.key == "ArrowRight" || e.key == "n")
    ensures r == Some(Restart) <==> isActive && e.key == "r" && (e.ctrlKey || e.metaKey)
  {
    if !isActive then None
    else if e.key == " " || e.key == "Enter" then Some(Flip)
    else if e.key == "ArrowRight" || e.key == "n" then Some(Next)
    else if e.key == "r" && (e.ctrlKey || e.metaKey) then Some(Restart)
    else None
  }

  /** Keys outside the table do nothing. */
  lemma OtherKeysIgnored(isActive: bool, e: KeyEvent)
    requires e.key !in {" ", "Enter", "ArrowRight", "n", "r"}
    ensures Dispatch(isActive, e).None?
  {
  }

  /** A plain "r" does not restart. */
  lemma PlainRIgnored(isActive: bool)
    ensures Dispatch(isActive, KeyEvent("r", false, false)).None?
  {
  }

  /** The learn view's wiring: flip, draw and reset, active once loading is over and cards exist. */
  predicate Active(s: LearnSession.LearnState) {
    !s.isLoading && |s.flashcards| > 0
  }

  function OnKey(s: LearnSession.LearnState, e: KeyEvent, random: real): (t: LearnSession.LearnState)
    requires 0.0 <= random < 1.0
    ensures Dispatch(Active(s), e).None? ==> t == s
  {
    match Dispatch(Active(s), e)
    case None => s
    case Some(Flip) => LearnSession.Flip(s)
    case Some(Next) => LearnSession.Draw(s, random)
    case Some(Restart) => LearnSession.Reset(s)
  }

  /** Enter twice shows the card as it was. */
  lemma EnterTwice(s: LearnSession.LearnState, random: real)
    requires 0.0 <= random < 1.0
    ensures OnKey(OnKey(s, KeyEvent("Enter", false, false), random), KeyEvent("Enter", false, false), random) == s
  {
  }

  /** Shortcuts keep the cards still to draw among the loaded ones. */
  lemma ShortcutsKeepConsistent(s: LearnSession.LearnState, e: KeyEvent, random: real)
    requires 0.0 <= random < 1.0 && LearnSession.Consistent(s)
    ensures LearnSession.Consistent(OnKey(s, e, random))
  {
    LearnSession.ActionsKeepConsistent(s, LearnSession.NotOk, random);
  }
}
