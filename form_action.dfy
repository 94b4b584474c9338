/** The swing form built on form actions (src/components/forms/FormAction.tsx):
    the validating submit action, which records an error per failing field,
    and the optimistic count of submissions still on their way. */
module FormAction {
  import opened Common

  /** The fields the form submits. */
  datatype SwingFormData = SwingFormData(title: string, description: string, outcome: string, club: string)

  /** The action's state: whether the last submission was saved, the
      banner message, and the messages per failing field when it was not. */
  datatype ActionState = ActionState(success: bool, message: string, errors: Option<map<Field, seq<string>>>)

  /** The keys of the error record: the validated fields. */
  datatype Field = Title | Outcome | Club

  /** The key as it appears in the record. */
  function FieldName(f: Field): string {
    match f
    case Title => "title"
    case Outcome => "outcome"
    case Club => "club"
  }

  /** The initial action state: not saved, no message. */
  const InitialState := ActionState(false, "", None)

  const TitleRequired := "Title is required"
  const OutcomeRequired := "Outcome is required"
  const ClubRequired := "Club is required"
  const FixErrorsMessage := "Please fix the errors below"
  const SavedMessage := "Swing saved successfully!"

  // ---------------------------------------------------------------------
  // String.prototype.trim

  /** The characters `trim` removes: ECMAScript white space and line
      terminators. */
  predicate IsSpace(c: char) {
    c == '\t' || c == '\n' || c == '\U{000B}' || c == '\U{000C}' || c == '\r' || c == ' ' ||
    c == '\U{00A0}' || c == '\U{1680}' || ('\U{2000}' <= c <= '\U{200A}') ||
    c == '\U{2028}' || c == '\U{2029}' || c == '\U{202F}' || c == '\U{205F}' ||
    c == '\U{3000}' || c == '\U{FEFF}'
  }

  /** `trimStart`: what is left after dropping leading white space. */
  function TrimStart(s: string): string
    decreases |s|
  {
    if s != [] && IsSpace(s[0]) then TrimStart(s[1..]) else s
  }

  /** `trimEnd`: what is left after dropping trailing white space. */
  function TrimEnd(s: string): string
    decreases |s|
  {
    if s != [] && IsSpace(s[|s| - 1]) then TrimEnd(s[..|s| - 1]) else s
  }

  /** `trimStart` drops exactly the leading run of white space: what is
      left is a suffix that starts with something else. */
  lemma {:induction false} TrimStartSpec(s: string)
    ensures var r := TrimStart(s);
      |r| <= |s| && r == s[|s| - |r|..] &&
      (forall i :: 0 <= i < |s| - |r| ==> IsSpace(s[i])) &&
      (r != [] ==> !IsSpace(r[0]))
    decreases |s|
  {
    if s != [] && IsSpace(s[0]) {
      TrimStartSpec(s[1..]);
    }
  }

  /** `trimEnd` drops exactly the trailing run of white space: what is left
      is a prefix that ends with something else. */
  lemma {:induction false} TrimEndSpec(s: string)
    ensures var r := TrimEnd(s);
      |r| <= |s| && r == s[..|r|] &&
      (forall i :: |r| <= i < |s| ==> IsSpace(s[i])) &&
      (r != [] ==> !IsSpace(r[|r| - 1]))
    decreases |s|
  {
    if s != [] && IsSpace(s[|s| - 1]) {
      TrimEndSpec(s[..|s| - 1]);
    }
  }

  /** `trim` */
  function Trim(s: string): string {
    TrimEnd(TrimStart(s))
  }

  /** A string trims to nothing exactly when it is all white space. */
  lemma TrimEmptyIff(s: string)
    ensures Trim(s) == "" <==> forall i :: 0 <= i < |s| ==> IsSpace(s[i])
  {
    var t := TrimStart(s);
    TrimStartSpec(s);
    if t != [] {
      var r := TrimEnd(t);
      TrimEndSpec(t);
      assert !IsSpace(t[0]);
      assert r != [];
      assert !IsSpace(s[|s| - |t|]);
    }
  }

  /** Trimming keeps the inner text and is idempotent. */
  lemma TrimIdempotent(s: string)
    ensures Trim(Trim(s)) == Trim(s)
  {
    var r := Trim(s);
    var t := TrimStart(s);
    TrimStartSpec(s);
    TrimEndSpec(t);
    if r != [] {
      assert r[0] == t[0];
      assert TrimStart(r) == r;
      assert TrimEnd(r) == r;
    }
  }

  // ---------------------------------------------------------------------
  // The action

  /** Whether a field of the submission fails its check. */
  predicate Fails(data: SwingFormData, f: Field) {
    match f
    case Title => Trim(data.title) == ""
    case Outcome => data.outcome == ""
    case Club => data.club == ""
  }

  /** The message a failing field gets. */
  function RequiredMessage(f: Field): string {
    match f
    case Title => TitleRequired
    case Outcome => OutcomeRequired
    case Club => ClubRequired
  }

  const AllFields: set<Field> := {Title, Outcome, Club}

  /** The error record: every failing field with its one message. */
  function FieldErrors(data: SwingFormData): map<Field, seq<string>> {
    map f | f in AllFields && Fails(data, f) :: [RequiredMessage(f)]
  }

  /** The errors name exactly the failing fields, each with its single
      message, and nothing else; the description is never checked. */
  lemma FieldErrorsSpec(data: SwingFormData, otherDescription: string)
    ensures var e := FieldErrors(data);
      (Title in e <==> Trim(data.title) == "") && (Title in e ==> e[Title] == [TitleRequired])
    ensures var e := FieldErrors(data);
      (Outcome in e <==> data.outcome == "") && (Outcome in e ==> e[Outcome] == [OutcomeRequired])
    ensures var e := FieldErrors(data);
      (Club in e <==> data.club == "") && (Club in e ==> e[Club] == [ClubRequired])
    ensures FieldErrors(data.(description := otherDescription)) == FieldErrors(data)
  {
  }

  /** The outcome of `submitSwingForm` for the submitted data (the earlier
      state plays no part). `Object.keys(errors).length > 0` is "the record
      is not empty". */
  function Validate(data: SwingFormData): ActionState {
    var errors := FieldErrors(data);
    if errors != map[] then ActionState(false, FixErrorsMessage, Some(errors))
    else ActionState(true, SavedMessage, None)
  }

  /** A submission is saved exactly when the title holds something besides
      white space and an outcome and a club are chosen; otherwise the
      banner asks to fix the errors, listed per field. */
  lemma ValidateSpec(data: SwingFormData)
    ensures Validate(data).success <==>
      (exists i :: 0 <= i < |data.title| && !IsSpace(data.title[i])) && data.outcome != "" && data.club != ""
    ensures Validate(data).success ==> Validate(data) == ActionState(true, SavedMessage, None)
    ensures !Validate(data).success ==>
      Validate(data) == ActionState(false, FixErrorsMessage, Some(FieldErrors(data)))
  {
    TrimEmptyIff(data.title);
    FieldErrorsSpec(data, data.description);
    var e := FieldErrors(data);
    assert Trim(data.title) == "" ==> Title in e;
    assert data.outcome == "" ==> Outcome in e;
    assert data.club == "" ==> Club in e;
    assert e != map[] ==> exists k :: k in e;
  }

  /** `submitSwingForm`: builds the error record one check at a time. */
  method SubmitSwingForm(prevState: ActionState, formData: SwingFormData) returns (r: ActionState)
    ensures r == Validate(formData)
  {
    var errors: map<Field, seq<string>> := map[];
    if Trim(formData.title) == "" {
      errors := errors[Title := [TitleRequired]];
    }
    if formData.outcome == "" {
      errors := errors[Outcome := [OutcomeRequired]];
    }
    if formData.club == "" {
      errors := errors[Club := [ClubRequired]];
    }
    assert errors == FieldErrors(formData) by {
      forall f ensures (f in errors <==> f in FieldErrors(formData)) {
        match f
        case Title =>
        case Outcome =>
        case Club =>
      }
    }
    if errors != map[] {
      return ActionState(false, FixErrorsMessage, Some(errors));
    }
    return ActionState(true, SavedMessage, None);
  }

  /** The form: the action state, the submissions queued for the action,
      and the optimistic submission counter shown meanwhile. */
  class FormActionView {
    var state: ActionState
    var pending: seq<SwingFormData>
    var optimisticSubmissions: nat

    /** The counter shows how many submissions are on their way. */
    predicate Valid()
      reads this
    {
      optimisticSubmissions == |pending|
    }

    constructor ()
      ensures Valid() && state == InitialState && pending == [] && optimisticSubmissions == 0
    {
      state := InitialState;
      pending := [];
      optimisticSubmissions := 0;
    }

    /** `handleSubmit`: one more optimistic submission, and the data is
        queued for the action. */
    method HandleSubmit(data: SwingFormData)
      requires Valid()
      modifies this
      ensures Valid()
      ensures optimisticSubmissions == old(optimisticSubmissions) + 1
      ensures pending == old(pending) + [data] && state == old(state)
    {
      optimisticSubmissions := optimisticSubmissions + 1;
      pending := pending + [data];
    }

    /** The queued actions run in order, each from the state the previous
        one left; once they have all finished the optimistic counter falls
        back to its base of 0. */
    method Settle()
      requires Valid()
      modifies this
      ensures Valid() && pending == [] && optimisticSubmissions == 0
      ensures old(pending) == [] ==> state == old(state)
      ensures old(pending) != [] ==> state == Validate(old(pending)[|old(pending)| - 1])
    {
      var k := 0;
      while k < |pending|
        invariant 0 <= k <= |pending|
        invariant pending == old(pending)
        invariant k == 0 ==> state == old(state)
        invariant k > 0 ==> state == Validate(pending[k - 1])
      {
        state := SubmitSwingForm(state, pending[k]);
        k := k + 1;
      }
      pending := [];
      optimisticSubmissions := 0;
    }
  }
}
