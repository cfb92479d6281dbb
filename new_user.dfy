/**
 * The administrator's "new user" form: a record of text fields updated by name,
 * and a submit that registers the user through the call for the chosen role.
 */
module NewUser {
  import opened Wrappers
  import opened Builtins
  import opened Json
  import opened Effects
  import Api

  const FailureFallback: string := "Error al crear usuario"
  const CreatedToast := Toast("Éxito", "Usuario creado correctamente", false)

  /** The form's fields as the page declares them. */
  const FormKeys: set<string> := {"first_names", "paternal_surname", "maternal_surname", "email", "password",
                                  "phone_number", "role", "code", "specialty"}

  /** `formData`: keyed by input name; `handleChange` may add further names. */
  type Form = map<string, string>

  predicate Complete(form: Form) {
    forall k :: k in FormKeys ==> k in form
  }

  const EmptyForm: Form := map k | k in FormKeys :: ""

  /** `handleChange`: the field named by the input takes its value. */
  function Changed(form: Form, name: string, value: string): (r: Form)
    ensures name in r && r[name] == value
    ensures forall k :: k in form && k != name ==> k in r && r[k] == form[k]
    ensures r.Keys == form.Keys + {name}
    ensures Complete(form) ==> Complete(r)
  {
    form[name := value]
  }

  /** `roleMap[role]`; `None` stands for `undefined`. */
  function RoleId(role: string): (r: Option<string>)
    ensures r.Some? <==> role in {"STUDENT", "TUTOR", "ADMIN", "CHECKER"}
    ensures role == "STUDENT" ==> r == Some("estudiante")
    ensures role == "TUTOR" ==> r == Some("tutor")
    ensures role == "ADMIN" ==> r == Some("administrador")
    ensures role == "CHECKER" ==> r == Some("verificador")
  {
    match role
    case "STUDENT" => Some("estudiante")
    case "TUTOR" => Some("tutor")
    case "ADMIN" => Some("administrador")
    case "CHECKER" => Some("verificador")
    case _ => None
  }

  /** The `user` object; `JSON.stringify` drops an undefined `role_id`. */
  function UserObject(form: Form, userId: string): Json
    requires Complete(form)
  {
    var roleId := RoleId(form["role"]);
    JObj([Api.Str("id", userId), Api.Str("first_names", form["first_names"]),
          Api.Str("paternal_surname", form["paternal_surname"]), Api.Str("maternal_surname", form["maternal_surname"]),
          Api.Str("email", form["email"]), Api.Str("password", form["password"]), Api.Str("phone_number", form["phone_number"])]
         + (if roleId.Some? then [Api.Str("role_id", roleId.value)] else [])
         + [Member("active", JBool(true))])
  }

  /** The key under which each role's own record is sent. */
  function SectionKey(role: string): string {
    match role
    case "STUDENT" => "student"
    case "TUTOR" => "tutor"
    case "ADMIN" => "admin"
    case _ => "checker"
  }

  /** The role's own record: its code under the role's code key, the tutor's
      specialty, and the new user's id. */
  function RoleRecord(role: string, form: Form, userId: string): Json
    requires Complete(form)
  {
    match role
    case "STUDENT" => JObj([Api.Str("student_code", form["code"]), Api.Str("user_id", userId)])
    case "TUTOR" => JObj([Api.Str("tutor_code", form["code"]), Api.Str("specialty", form["specialty"]), Api.Str("user_id", userId)])
    case "ADMIN" => JObj([Api.Str("admin_code", form["code"]), Api.Str("user_id", userId)])
    case _ => JObj([Api.Str("checker_code", form["code"]), Api.Str("user_id", userId)])
  }

  function Body(form: Form, userId: string): Json
    requires Complete(form)
  {
    JObj([Member("user", UserObject(form, userId)),
          Member(SectionKey(form["role"]), RoleRecord(form["role"], form, userId))])
  }

  /** The one registration call the submit makes, or none for a role outside the four. */
  function Registration(form: Form, userId: string): Option<Api.Endpoint>
    requires Complete(form)
  {
    var body := Body(form, userId);
    match form["role"]
    case "STUDENT" => Some(Api.RegisterStudent(body))
    case "TUTOR" => Some(Api.RegisterTutor(body))
    case "ADMIN" => Some(Api.RegisterAdmin(body))
    case "CHECKER" => Some(Api.RegisterChecker(body))
    case _ => None
  }

  // ---------------------------------------------------------------------------
  // Properties
  // ---------------------------------------------------------------------------

  /** A registration call is made exactly for the four roles, and it is the call
      for that role. */
  lemma RegistrationByRole(form: Form, userId: string)
    requires Complete(form)
    ensures var r, role := Registration(form, userId), form["role"];
            (r.Some? <==> RoleId(role).Some?)
            && (role == "STUDENT" ==> r.Some? && r.value.RegisterStudent?)
            && (role == "TUTOR" ==> r.Some? && r.value.RegisterTutor?)
            && (role == "ADMIN" ==> r.Some? && r.value.RegisterAdmin?)
            && (role == "CHECKER" ==> r.Some? && r.value.RegisterChecker?)
    ensures Registration(form, userId).Some? ==> !Api.IncludesAuth(Registration(form, userId).value)
  {
  }

  /** `obj[k1][k2]` on a sent body. */
  function Field2(j: Json, k1: string, k2: string): Option<Json> {
    var inner := Get(j, k1);
    if inner.Some? then Get(inner.value, k2) else None
  }

  /** The user record carries the generated id, the role's id and `active: true`;
      the role's record carries the same id and the form's code. */
  lemma RegistrationBody(form: Form, userId: string)
    requires Complete(form)
    requires Registration(form, userId).Some?
    ensures var data, role := Registration(form, userId).value.data, form["role"];
            var section := SectionKey(role);
            Field2(data, "user", "id") == Some(JStr(userId))
            && Field2(data, "user", "role_id") == Some(JStr(RoleId(role).value))
            && Field2(data, "user", "active") == Some(JBool(true))
            && Field2(data, section, "user_id") == Some(JStr(userId))
            && Field2(data, section, section + "_code") == Some(JStr(form["code"]))
  {
    BodySections(form, userId);
    UserObjectFields(form, userId);
    RoleRecordFields(form["role"], form, userId);
  }

  /** Only a tutor's record carries a specialty. */
  lemma SpecialtyOnlyForTutor(form: Form, userId: string)
    requires Complete(form)
    requires Registration(form, userId).Some?
    ensures var data, role := Registration(form, userId).value.data, form["role"];
            Field2(data, SectionKey(role), "specialty").Some? <==> role == "TUTOR"
    ensures form["role"] == "TUTOR" ==>
              Field2(Registration(form, userId).value.data, "tutor", "specialty") == Some(JStr(form["specialty"]))
  {
    BodySections(form, userId);
    RoleRecordFields(form["role"], form, userId);
  }

  lemma BodySections(form: Form, userId: string)
    requires Complete(form)
    ensures Get(Body(form, userId), "user") == Some(UserObject(form, userId))
    ensures Get(Body(form, userId), SectionKey(form["role"])) == Some(RoleRecord(form["role"], form, userId))
  {
    var ms := Body(form, userId).members;
    LookupAt(ms, 0, "user");
    LookupAt(ms, 1, SectionKey(form["role"]));
  }

  lemma UserObjectFields(form: Form, userId: string)
    requires Complete(form) && RoleId(form["role"]).Some?
    ensures var user := UserObject(form, userId);
            Get(user, "id") == Some(JStr(userId))
            && Get(user, "role_id") == Some(JStr(RoleId(form["role"]).value))
            && Get(user, "active") == Some(JBool(true))
  {
    var ms := UserObject(form, userId).members;
    LookupAt(ms, 0, "id");
    LookupAt(ms, 7, "role_id");
    LookupAt(ms, 8, "active");
  }

  lemma RoleRecordFields(role: string, form: Form, userId: string)
    requires Complete(form)
    ensures var rec := RoleRecord(role, form, userId);
            Get(rec, "user_id") == Some(JStr(userId))
            && (RoleId(role).Some? ==> Get(rec, SectionKey(role) + "_code") == Some(JStr(form["code"])))
            && (Get(rec, "specialty").Some? <==> role == "TUTOR")
            && (role == "TUTOR" ==> Get(rec, "specialty") == Some(JStr(form["specialty"])))
  {
    var ms := RoleRecord(role, form, userId).members;
    LookupAt(ms, |ms| - 1, "user_id");
    if RoleId(role).Some? {
      LookupAt(ms, 0, SectionKey(role) + "_code");
    }
    if role == "TUTOR" {
      LookupAt(ms, 1, "specialty");
    }
  }

  // ---------------------------------------------------------------------------
  // The page
  // ---------------------------------------------------------------------------

  class NewUserPage {
    var formData: Form
    var isLoading: bool
    var trace: seq<Event>

    ghost predicate Valid()
      reads this
    {
      Complete(formData)
    }

    constructor ()
      ensures Valid() && formData == EmptyForm && !isLoading && trace == []
    {
      formData := EmptyForm;
      isLoading := false;
      trace := [];
    }

    method HandleChange(name: string, value: string)
      requires Valid()
      modifies this`formData
      ensures Valid()
      ensures formData == Changed(old(formData), name, value)
    {
      formData := formData[name := value];
    }

    /** `handleSubmit(userId)`, `userId` standing for `crypto.randomUUID()`: loading
        on, the role's registration call if there is one, then the success toast
        and `/usuarios` unless that call failed, and loading off. */
    method HandleSubmit(userId: string, outcome: Result<Json, string>)
      requires Valid()
      modifies this`isLoading, this`trace
      ensures !isLoading
      ensures var r := Registration(formData, userId);
              r.None? ==>
                trace == old(trace) + [LoadingSet(true), Toasted(CreatedToast), Navigated("/usuarios"), LoadingSet(false)]
      ensures var r := Registration(formData, userId);
              r.Some? && outcome.Ok? ==>
                trace == old(trace) + [LoadingSet(true), Called(r.value), Toasted(CreatedToast),
                                       Navigated("/usuarios"), LoadingSet(false)]
      ensures var r := Registration(formData, userId);
              r.Some? && outcome.Err? ==>
                trace == old(trace) + [LoadingSet(true), Called(r.value),
                                       Toasted(ErrorToast(OrElse(outcome.error, FailureFallback))), LoadingSet(false)]
    {
      isLoading := true;
      trace := trace + [LoadingSet(true)];
      var registration := Registration(formData, userId);
      if registration.Some? {
        trace := trace + [Called(registration.value)];
        if outcome.Err? {
          trace := trace + [Toasted(ErrorToast(OrElse(outcome.error, FailureFallback)))];
          isLoading := false;
          trace := trace + [LoadingSet(false)];
          return;
        }
      }
      trace := trace + [Toasted(CreatedToast), Navigated("/usuarios")];
      isLoading := false;
      trace := trace + [LoadingSet(false)];
    }
  }
}
