/** The use-case form (usecase-frontend/src/components/UseCaseForm.jsx): its state, the prefill
    from the edited use case, field edits and the required-field check on submit. `onSave` is a
    callback whose outcome is passed in. */
module UseCaseForm {
  import opened Base
  import opened Text
  import opened UseCaseModel
  import opened UseCaseRoutes

  const Title: string := "title"
  const Description: string := "description"
  const Actor: string := "actor"
  const Preconditions: string := "preconditions"
  const Postconditions: string := "postconditions"
  const MainFlow: string := "main_flow"
  const AlternativeFlows: string := "alternative_flows"
  const Exceptions: string := "exceptions"

  const FieldNames: seq<string> :=
    [Title, Description, Actor, Preconditions, Postconditions, MainFlow, AlternativeFlows, Exceptions]

  /** Every field but `exceptions`. */
  const RequiredNames: seq<string> :=
    [Title, Description, Actor, Preconditions, Postconditions, MainFlow, AlternativeFlows]

  const FillRequired: string := "Preencha todos os campos obrigatórios."
  const SaveFailed: string := "Erro ao salvar. Tente novamente."

  /** The `useCase` prop: the edited use case's id and content. */
  datatype EditTarget = EditTarget(id: int, fields: Fields)

  /** The argument of `onSave`: the form data plus the edited use case's id (`undefined` when creating). */
  datatype SaveRequest = SaveRequest(data: map<string, string>, id: Option<int>)

  /** The content column a form field shows. */
  function Column(f: Fields, name: string): Option<string>
  {
    if name == Title then f.title
    else if name == Description then f.description
    else if name == Actor then f.actor
    else if name == Preconditions then f.preconditions
    else if name == Postconditions then f.postconditions
    else if name == MainFlow then f.mainFlow
    else if name == AlternativeFlows then f.alternativeFlows
    else if name == Exceptions then f.exceptions
    else None
  }

  /** The form holds all eight fields. */
  predicate HasFields(form: map<string, string>)
  {
    forall n :: n in FieldNames ==> n in form
  }

  /** The effect on `[useCase]`: each field copied from the use case, null or absent as "";
      all eight "" when there is no use case. */
  function Prefill(useCase: Option<EditTarget>): (form: map<string, string>)
    ensures HasFields(form) && forall n :: n in form ==> n in FieldNames
    ensures useCase.None? ==> forall n :: n in form ==> form[n] == ""
    ensures useCase.Some? ==> forall n :: n in form ==> form[n] == OrEmpty(Column(useCase.value.fields, n))
  {
    match useCase
    case None => map n | n in FieldNames :: ""
    case Some(u) => map n | n in FieldNames :: OrEmpty(Column(u.fields, n))
  }

  /** The submit check: no required field is blank after `trim()`. */
  predicate RequiredFilled(form: map<string, string>)
    requires HasFields(form)
  {
    !(|| Trim(form[Title]) == "" || Trim(form[Description]) == "" || Trim(form[Actor]) == ""
      || Trim(form[Preconditions]) == "" || Trim(form[Postconditions]) == ""
      || Trim(form[MainFlow]) == "" || Trim(form[AlternativeFlows]) == "")
  }

  /** The check passes exactly when every required field holds something other than white
      space; `exceptions` plays no part. */
  lemma RequiredFilledMeansNotBlank(form: map<string, string>)
    requires HasFields(form)
    ensures RequiredFilled(form) <==> forall n :: n in RequiredNames ==> !IsBlank(form[n])
  {
    TrimEmptyIffBlank(form[Title]);
    TrimEmptyIffBlank(form[Description]);
    TrimEmptyIffBlank(form[Actor]);
    TrimEmptyIffBlank(form[Preconditions]);
    TrimEmptyIffBlank(form[Postconditions]);
    TrimEmptyIffBlank(form[MainFlow]);
    TrimEmptyIffBlank(form[AlternativeFlows]);
    var noneBlank :=
      && !IsBlank(form[Title]) && !IsBlank(form[Description]) && !IsBlank(form[Actor])
      && !IsBlank(form[Preconditions]) && !IsBlank(form[Postconditions])
      && !IsBlank(form[MainFlow]) && !IsBlank(form[AlternativeFlows]);
    assert RequiredFilled(form) <==> noneBlank;
  }

  /** `exceptions` is never required. */
  lemma ExceptionsNeverRequired(form: map<string, string>, value: string)
    requires HasFields(form)
    ensures HasFields(form[Exceptions := value])
    ensures RequiredFilled(form[Exceptions := value]) == RequiredFilled(form)
  {
  }

  /** The content a submitted form sends. */
  function ContentOf(form: map<string, string>): Fields
    requires HasFields(form)
  {
    Fields(Some(form[Title]), Some(form[Description]), Some(form[Actor]), Some(form[Preconditions]),
           Some(form[Postconditions]), Some(form[MainFlow]), Some(form[AlternativeFlows]),
           Some(form[Exceptions]))
  }

  /** A form that passes the client's check carries content that passes the server's checks of
      create and update. Only the title/description half depends on the check: the form sends
      all eight fields as strings, so every non-null column is present in any submitted content. */
  lemma SubmittedFormPassesServerChecks(form: map<string, string>)
    requires HasFields(form) && RequiredFilled(form)
    ensures HasTitleAndDescription(ContentOf(form)) && Complete(ContentOf(form))
  {
    assert Trim("") == "";
  }

  /** Submitting an untouched prefilled form sends the stored content back, except that a null
      `exceptions` comes back as "". */
  lemma PrefillRoundTrip(u: EditTarget)
    requires Complete(u.fields)
    ensures ContentOf(Prefill(Some(u))) == u.fields.(exceptions := Some(OrEmpty(u.fields.exceptions)))
  {
    var form := Prefill(Some(u));
    assert form[Title] == OrEmpty(Column(u.fields, Title));
  }

  class FormState {
    var formData: map<string, string>
    var error: string
    var loading: bool
    var useCase: Option<EditTarget>

    ghost predicate Valid()
      reads this
    {
      HasFields(formData)
    }

    /** Mounting the form runs the prefill effect. */
    constructor (useCase: Option<EditTarget>)
      ensures Valid()
      ensures this.useCase == useCase && formData == Prefill(useCase) && error == "" && !loading
    {
      this.useCase := useCase;
      formData := Prefill(useCase);
      error := "";
      loading := false;
    }

    /** The effect that runs when the `useCase` prop changes. */
    method UseCaseChanged(useCase: Option<EditTarget>)
      modifies this
      ensures Valid()
      ensures this.useCase == useCase && formData == Prefill(useCase) && error == ""
      ensures loading == old(loading)
    {
      this.useCase := useCase;
      formData := Prefill(useCase);
      error := "";
    }

    /** handleChange: the named field takes the value; every other field keeps its own. */
    method HandleChange(name: string, value: string)
      requires Valid()
      modifies this
      ensures Valid()
      ensures formData == old(formData)[name := value]
      ensures forall n :: n in old(formData) && n != name ==> formData[n] == old(formData)[n]
      ensures error == old(error) && loading == old(loading) && useCase == old(useCase)
    {
      formData := formData[name := value];
    }

    /** handleSubmit: a blank required field sets the error and saves nothing; otherwise
        `onSave` receives the form data and the edited id, and the error afterwards says whether
        it succeeded. Returns what `onSave` was called with. */
    method HandleSubmit(saveSucceeds: bool) returns (saved: Option<SaveRequest>)
      requires Valid()
      modifies this
      ensures Valid()
      ensures formData == old(formData) && useCase == old(useCase)
      ensures !RequiredFilled(old(formData)) ==>
          saved == None && error == FillRequired && loading == old(loading)
      ensures RequiredFilled(old(formData)) ==>
          && saved == Some(SaveRequest(formData, if useCase.Some? then Some(useCase.value.id) else None))
          && error == (if saveSucceeds then "" else SaveFailed)
          && !loading
    {
      if !RequiredFilled(formData) {
        error := FillRequired;
        return None;
      }
      loading := true;
      error := "";
      saved := Some(SaveRequest(formData, if useCase.Some? then Some(useCase.value.id) else None));
      if !saveSucceeds {
        error := SaveFailed;
      }
      loading := false;
    }
  }
}
