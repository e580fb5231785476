/** The sign-up form: client-side checks run in a fixed order before the
    account backend is called, then the `error`, `loading` and `success`
    flags record how the submission went. */
module RegisterForm {
  import opened Common
  import Auth

  const PasswordMismatch := "Les mots de passe ne correspondent pas"
  const PasswordTooShort := "Le mot de passe doit contenir au moins 8 caractères"
  const GenericError := "Une erreur est survenue"
  const MinPasswordLength := 8

  /** The ordered checks of the submit handler: mismatch first, then length. */
  function Validate(password: string, confirmPassword: string): (err: Option<string>)
    ensures err.None? <==> password == confirmPassword && |password| >= MinPasswordLength
    ensures password != confirmPassword ==> err == Some(PasswordMismatch)
    ensures password == confirmPassword && |password| < MinPasswordLength ==> err == Some(PasswordTooShort)
  {
    if password != confirmPassword then Some(PasswordMismatch)
    else if |password| < MinPasswordLength then Some(PasswordTooShort)
    else None
  }

  /** What the `catch` receives: an `Error` carries a message, anything else does not. */
  datatype Caught = ErrorValue(message: string) | OtherValue

  /** `err instanceof Error ? err.message : "Une erreur est survenue"` */
  function CaughtMessage(c: Caught): (m: string)
    ensures c.ErrorValue? ==> m == c.message
    ensures c.OtherValue? ==> m == GenericError
  {
    match c
    case ErrorValue(msg) => msg
    case OtherValue => GenericError
  }

  class Form {
    var formData: Auth.RegisterData
    var confirmPassword: string
    var loading: bool
    var error: Option<string>
    var success: bool

    constructor ()
      ensures formData == Auth.RegisterData("", "", "", "") && confirmPassword == ""
      ensures !loading && error.None? && !success
    {
      formData := Auth.RegisterData("", "", "", "");
      confirmPassword := "";
      loading := false;
      error := None;
      success := false;
    }

    method SetFormData(data: Auth.RegisterData)
      modifies this`formData
      ensures formData == data
    {
      formData := data;
    }

    method SetConfirmPassword(value: string)
      modifies this`confirmPassword
      ensures confirmPassword == value
    {
      confirmPassword := value;
    }

    /** `handleSubmit`. `outcome` is how the awaited `register` call settled;
        it is consulted only when the call is made. Returns the data sent to
        `register`, or None when validation stopped the submission. */
    method HandleSubmit(outcome: Result<Auth.User, Caught>) returns (submitted: Option<Auth.RegisterData>)
      modifies this`loading, this`error, this`success
      ensures submitted.Some? <==> Validate(formData.password, confirmPassword).None?
      ensures submitted.Some? ==> submitted.value == formData
      ensures submitted.None? ==>
                error == Validate(formData.password, confirmPassword)
                && loading == old(loading) && success == old(success)
      ensures submitted.Some? ==> !loading
      ensures submitted.Some? && outcome.Success? ==> success && error.None?
      ensures submitted.Some? && outcome.Failure? ==>
                error == Some(CaughtMessage(outcome.error)) && success == old(success)
    {
      error := None;
      var invalid := Validate(formData.password, confirmPassword);
      if invalid.Some? {
        error := invalid;
        return None;
      }
      loading := true;
      submitted := Some(formData);
      match outcome {
        case Success(_) =>
          success := true;
        case Failure(c) =>
          error := Some(CaughtMessage(c));
      }
      loading := false;
    }
  }
}
