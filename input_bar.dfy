/** The question field of frontend/src/components/InputBar.tsx: the submit guard,
    the Enter/Shift rule and the two `disabled` predicates. */
module InputBarComponent {
  import opened Js

  /** The guard of `handleSubmit`: `question.trim() && !isLoading && !disabled`. */
  predicate CanSubmit(question: string, isLoading: bool, disabled: bool)
  {
    Trim(question) != "" && !isLoading && !disabled
  }

  /** The send button's `disabled`. */
  predicate SendDisabled(question: string, isLoading: bool, disabled: bool)
  {
    Trim(question) == "" || isLoading || disabled
  }

  /** The textarea's `disabled`. */
  predicate TextareaDisabled(isLoading: bool, disabled: bool)
  {
    isLoading || disabled
  }

  /** What `handleSubmit` passes to `onSubmit`, if it fires. */
  function Submission(question: string, isLoading: bool, disabled: bool): (r: Option<string>)
    ensures r.Some? <==> CanSubmit(question, isLoading, disabled)
    ensures r.Some? ==> r.value == Trim(question)
    ensures r.Some? ==> r.value != "" && Trim(r.value) == r.value
  {
    if CanSubmit(question, isLoading, disabled) then
      TrimIdempotent(question);
      Some(Trim(question))
    else None
  }

  /** The send button is enabled exactly when pressing it submits. */
  lemma SendEnabledIffSubmits(question: string, isLoading: bool, disabled: bool)
    ensures !SendDisabled(question, isLoading, disabled) <==> Submission(question, isLoading, disabled).Some?
  {
  }

  /** The component's `question` state. */
  class InputBar {
    var question: string

    constructor ()
      ensures question == ""
    {
      question := "";
    }

    /** Typing into the textarea; a disabled textarea takes no input. */
    method Type(value: string, isLoading: bool, disabled: bool)
      modifies this
      ensures question == if TextareaDisabled(isLoading, disabled) then old(question) else value
    {
      if !TextareaDisabled(isLoading, disabled) {
        question := value;
      }
    }

    /** `handleSubmit`: returns the value given to `onSubmit`, if it fires. */
    method HandleSubmit(isLoading: bool, disabled: bool) returns (submitted: Option<string>)
      modifies this
      ensures submitted == Submission(old(question), isLoading, disabled)
      ensures question == if submitted.Some? then "" else old(question)
    {
      if Trim(question) != "" && !isLoading && !disabled {
        submitted := Some(Trim(question));
        question := "";
      } else {
        submitted := None;
      }
    }

    /** `handleKeyPress`: Enter without Shift takes the submit path; any other key does nothing. */
    method HandleKeyPress(key: string, shiftKey: bool, isLoading: bool, disabled: bool) returns (submitted: Option<string>)
      modifies this
      ensures key == "Enter" && !shiftKey ==> submitted == Submission(old(question), isLoading, disabled)
      ensures !(key == "Enter" && !shiftKey) ==> submitted == None
      ensures question == if submitted.Some? then "" else old(question)
    {
      if key == "Enter" && !shiftKey {
        submitted := HandleSubmit(isLoading, disabled);
      } else {
        submitted := None;
      }
    }
  }
}
