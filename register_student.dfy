/**
 * The student self-registration form: four text fields updated by name, a
 * password-confirmation check, and the registration call with the whole form.
 */
module RegisterStudent {
  import opened Wrappers
  import opened Builtins
  import opened Json
  import opened Effects
  import Api

  const MismatchMessage: string := "Las contraseñas no coinciden"
  const FailureFallback: string := "Error al registrar estudiante"
  const RegisteredToast := Toast("Éxito", "Registro completado. Revise su correo para verificar su cuenta.", false)

  /** The form as first rendered, in its declared field order. */
  const InitialForm: seq<Member> :=
    [Member("id", JStr("")), Member("first_names", JStr("")),
     Member("password", JStr("")), Member("confirmPassword", JStr(""))]

  /** `formData.password !== formData.confirmPassword`. */
  predicate PasswordsDiffer(form: seq<Member>) {
    Lookup(form, "password") != Lookup(form, "confirmPassword")
  }

  class RegisterStudentPage {
    var formData: seq<Member>
    var isLoading: bool
    var trace: seq<Event>

    constructor ()
      ensures formData == InitialForm && !isLoading && trace == []
    {
      formData := InitialForm;
      isLoading := false;
      trace := [];
    }

    /** `handleChange`: the named field takes the typed value. */
    method HandleChange(name: string, value: string)
      modifies this`formData
      ensures formData == Assign(old(formData), name, JStr(value))
      ensures Lookup(formData, name) == Some(JStr(value))
      ensures forall k :: k != name ==> Lookup(formData, k) == Lookup(old(formData), k)
    {
      formData := Assign(formData, name, JStr(value));
    }

    /** `handleSubmit`: differing passwords toast the error and stop before loading
        is switched on; otherwise the whole form is sent, success goes to `/login`,
        failure toasts the error, and loading ends either way. */
    method HandleSubmit(outcome: Result<Json, string>)
      modifies this`isLoading, this`trace
      ensures PasswordsDiffer(formData) ==>
                trace == old(trace) + [Toasted(ErrorToast(MismatchMessage))] && isLoading == old(isLoading)
      ensures !PasswordsDiffer(formData) ==> !isLoading
      ensures !PasswordsDiffer(formData) && outcome.Ok? ==>
                trace == old(trace) + [LoadingSet(true), Called(Api.RegisterStudent(JObj(formData))),
                                       Toasted(RegisteredToast), Navigated("/login"), LoadingSet(false)]
      ensures !PasswordsDiffer(formData) && outcome.Err? ==>
                trace == old(trace) + [LoadingSet(true), Called(Api.RegisterStudent(JObj(formData))),
                                       Toasted(ErrorToast(OrElse(outcome.error, FailureFallback))), LoadingSet(false)]
    {
      if Lookup(formData, "password") != Lookup(formData, "confirmPassword") {
        trace := trace + [Toasted(ErrorToast(MismatchMessage))];
        return;
      }
      isLoading := true;
      trace := trace + [LoadingSet(true)];
      trace := trace + [Called(Api.RegisterStudent(JObj(formData)))];
      if outcome.Ok? {
        trace := trace + [Toasted(RegisteredToast), Navigated("/login")];
      } else {
        trace := trace + [Toasted(ErrorToast(OrElse(outcome.error, FailureFallback)))];
      }
      isLoading := false;
      trace := trace + [LoadingSet(false)];
    }
  }

  /** Editing fields never reorders or drops the declared ones: they stay the
      first four keys, in order. */
  lemma {:induction false} DeclaredFieldsStayFirst(form: seq<Member>, name: string, value: string)
    requires |form| >= 4 && Keys(form)[..4] == Keys(InitialForm)
    ensures var r := Assign(form, name, JStr(value));
            |r| >= 4 && Keys(r)[..4] == Keys(InitialForm)
  {
    AssignKeepsKeyPrefix(form, name, JStr(value), 4);
  }

  /** The body sent is the form itself, so it carries the confirmation field too. */
  lemma SentBodyCarriesConfirmation(form: seq<Member>)
    requires Lookup(form, "confirmPassword").Some?
    ensures Api.Payload(Api.RegisterStudent(JObj(form))) == Some(JObj(form))
    ensures Get(JObj(form), "confirmPassword") == Lookup(form, "confirmPassword")
    ensures !Api.IncludesAuth(Api.RegisterStudent(JObj(form)))
  {
  }

  /** The first render's two password fields agree, so an untouched form passes the
      check; typing a different confirmation makes it fail. */
  lemma ConfirmationCheck(password: string, confirmation: string)
    ensures !PasswordsDiffer(InitialForm)
    ensures var f := Assign(Assign(InitialForm, "password", JStr(password)), "confirmPassword", JStr(confirmation));
            PasswordsDiffer(f) <==> password != confirmation
  {
    LookupAt(InitialForm, 2, "password");
    LookupAt(InitialForm, 3, "confirmPassword");
  }
}
