/**
 * The user-edit form: two rules in order (required fields, then a minimum
 * trimmed name length) and a submit gate that forwards the unchanged id, the
 * trimmed name and the selected role.
 */
module UserEditForm {
  import opened Wrappers
  import Text

  /** The user being edited, as the users page passes it in. */
  datatype EditedUser = EditedUser(id: string, name: Option<string>, role: string)

  /** What `onSubmit` receives. */
  datatype Submission = Submission(id: string, name: string, role: string)

  const RequiredMessage := "Todos los campos son obligatorios"
  const NameLengthMessage := "El nombre debe tener al menos 2 caracteres"

  /** The values the role selector offers. */
  const RoleOptions: seq<string> := ["ADMIN", "USER"]

  /** `user.name || ""`. */
  function InitialName(u: EditedUser): (r: string)
    ensures Truthy(u.name) ==> r == u.name.value
    ensures !Truthy(u.name) ==> r == ""
  {
    if Truthy(u.name) then u.name.value else ""
  }

  /** `validate`: the message of the first failing rule, or `None` when the form is valid. */
  function ValidationError(name: string, role: string): (r: Option<string>)
    ensures Text.Blank(name) || role == "" ==> r == Some(RequiredMessage)
    ensures r == Some(NameLengthMessage) <==> role != "" && |Text.Trim(name)| == 1
    ensures r == None <==> role != "" && |Text.Trim(name)| >= 2
  {
    Text.TrimEmptyIffBlank(name);
    if Text.Trim(name) == "" || role == "" then
      Some(RequiredMessage)
    else if |Text.Trim(name)| < 2 then
      Some(NameLengthMessage)
    else
      None
  }

  /** The component's state and its handlers. */
  class UserEditFormState {
    const user: EditedUser
    var name: string
    var role: string
    var error: string
    var submitting: bool

    /** The initial state: the user's name (or "") and role, no error, not submitting. */
    constructor (u: EditedUser)
      ensures user == u && name == InitialName(u) && role == u.role && error == "" && !submitting
    {
      user := u;
      name := InitialName(u);
      role := u.role;
      error := "";
      submitting := false;
    }

    /** The role selector's `onChange`: the role becomes one of the offered values. */
    method SelectRole(choice: nat)
      requires choice < |RoleOptions|
      modifies this`role
      ensures role == RoleOptions[choice] && role in RoleOptions
    {
      role := RoleOptions[choice];
    }

    /** `validate`: sets `error` to the failing rule's message, or clears it. */
    method Validate() returns (ok: bool)
      modifies this`error
      ensures ok == (ValidationError(name, role) == None)
      ensures error == ValidationError(name, role).GetOr("")
    {
      var r := ValidationError(name, role);
      ok := r.None?;
      error := r.GetOr("");
    }

    /** `handleSubmit`: `onSubmit` receives the unchanged id, the trimmed name and the role, only when valid. */
    method HandleSubmit() returns (submitted: Option<Submission>)
      modifies this`error, this`submitting
      ensures submitted.Some? <==> ValidationError(name, role) == None
      ensures error == ValidationError(name, role).GetOr("")
      ensures submitted.Some? ==> submitted.value == Submission(user.id, Text.Trim(name), role) && !submitting
      ensures submitted.None? ==> submitting == old(submitting)
    {
      var ok := Validate();
      if !ok {
        return None;
      }
      submitting := true;
      submitted := Some(Submission(user.id, Text.Trim(name), role));
      submitting := false;
    }
  }

  /** A white-space-only name reports the required message, never the length message. */
  lemma BlankNameIsRequired(name: string, role: string)
    requires Text.Blank(name)
    ensures ValidationError(name, role) == Some(RequiredMessage)
    ensures ValidationError(name, role) != Some(NameLengthMessage)
  {
  }

  /** A name of two or more characters that neither starts nor ends with white space passes with any role. */
  lemma UntrimmedNameIsValid(name: string, role: string)
    requires |name| >= 2 && !Text.IsSpace(name[0]) && !Text.IsSpace(name[|name| - 1]) && role != ""
    ensures ValidationError(name, role) == None
  {
    assert Text.TrimStart(name) == name;
    assert Text.TrimEnd(name) == name;
  }

  /** The pre-filled form of the tests' user validates. */
  lemma TestUserScenario()
    ensures InitialName(EditedUser("1", Some("Test User"), "ADMIN")) == "Test User"
    ensures ValidationError("Test User", "ADMIN") == None
  {
    var name := "Test User";
    assert |name| == 9 && name[0] == 'T' && name[8] == 'r';
    UntrimmedNameIsValid(name, "ADMIN");
  }

  /** A one-letter name fails on the length rule, an empty one on the required rule. */
  lemma ShortNameScenarios()
    ensures ValidationError("A", "ADMIN") == Some(NameLengthMessage)
    ensures ValidationError("", "ADMIN") == Some(RequiredMessage)
  {
    assert Text.TrimStart("A") == "A";
    assert Text.TrimEnd("A") == "A";
  }
}
