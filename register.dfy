/**
  * The registration page (`Register` in src/views/auth/register/index.jsx): a six-field form
  * record updated by input name, a show/hide toggle for the password inputs, and the submit
  * handler that checks the confirmation, posts the account fields and moves to sign-in.
  */
module Register {
  import opened Optional

  /** The names of the six inputs, which are the keys of the form record. */
  const FieldNames: set<string> := {"firstName", "lastName", "email", "phoneNumber", "password", "confirmPassword"}

  /** The keys of the request body, in the order the object literal lists them. */
  const BodyKeys: seq<string> := ["firstName", "lastName", "email", "phoneNumber", "password"]

  /** Where a successful registration sends the user. */
  const SignInRoute := "/auth/sign-in"

  /** The message shown when the two passwords differ. */
  const MismatchAlert := "Passwords do not match"

  /** The initial `formData`: the six fields, each "". */
  function InitialFormData(): (m: map<string, string>)
    ensures m.Keys == FieldNames
    ensures forall k :: k in m ==> m[k] == ""
  {
    map["firstName" := "", "lastName" := "", "email" := "", "phoneNumber" := "",
        "password" := "", "confirmPassword" := ""]
  }

  /** `{ ...formData, [name]: value }`: the named field takes the value, every other field
      keeps its own; a name not yet present becomes a new key. */
  function WithField(formData: map<string, string>, name: string, value: string): (r: map<string, string>)
    ensures r.Keys == formData.Keys + {name}
    ensures r[name] == value
    ensures forall k :: k in formData && k != name ==> r[k] == formData[k]
  {
    formData[name := value]
  }

  /** The fields of `formData` named by `keys`, as ordered key/value pairs (the shape
      `JSON.stringify` gives an object literal). */
  function Project(formData: map<string, string>, keys: seq<string>): (body: seq<(string, string)>)
    requires forall i :: 0 <= i < |keys| ==> keys[i] in formData
    ensures |body| == |keys|
    ensures forall i :: 0 <= i < |keys| ==> body[i] == (keys[i], formData[keys[i]])
  {
    if keys == [] then [] else [(keys[0], formData[keys[0]])] + Project(formData, keys[1..])
  }

  /** The registration request body: exactly firstName, lastName, email, phoneNumber and
      password, in that order and with the form's values; `confirmPassword` is never sent. */
  function RequestBody(formData: map<string, string>): (body: seq<(string, string)>)
    requires FieldNames <= formData.Keys
    ensures |body| == 5
    ensures forall i :: 0 <= i < 5 ==> body[i] == (BodyKeys[i], formData[BodyKeys[i]])
    ensures forall i :: 0 <= i < 5 ==> body[i].0 != "confirmPassword"
  {
    Project(formData, BodyKeys)
  }

  /** The `type` of both password inputs: shown as text while `show` holds. */
  function PasswordInputType(show: bool): (t: string)
    ensures t == "text" <==> show
    ensures t == "password" <==> !show
  {
    if show then "text" else "password"
  }

  /** How the registration request ends: no response at all, or a response whose `ok` is
      given. */
  datatype HttpOutcome = NetworkError | Response(ok: bool)

  /** What one run of the submit handler does outside the component: the alerts it raises,
      the body it posts (if it posts), the routes it pushes and the errors it logs. */
  datatype Effects = Effects(
    alerts: seq<string>,
    request: Option<seq<(string, string)>>,
    navigations: seq<string>,
    errorsLogged: nat)

  class RegisterForm {
    var show: bool
    var formData: map<string, string>

    /** Every input's name is a key of the record. */
    predicate Valid()
      reads this
    {
      FieldNames <= formData.Keys
    }

    /** The page's initial state: passwords hidden, all six fields "". */
    constructor ()
      ensures Valid()
      ensures !show && formData == InitialFormData()
    {
      show := false;
      formData := InitialFormData();
    }

    /** `handleClick`: flips `show`. */
    method HandleClick()
      modifies this
      ensures show == !old(show) && formData == old(formData)
    {
      show := !show;
    }

    /** `handleChange`: stores the record with the event's field set to the event's value. */
    method HandleChange(name: string, value: string)
      modifies this
      ensures formData == WithField(old(formData), name, value) && show == old(show)
      ensures old(Valid()) ==> Valid()
    {
      formData := WithField(formData, name, value);
    }

    /** `handleRegister`: when the passwords differ it alerts and returns, with no request
        and no navigation. Otherwise it posts the five account fields; an ok response pushes
        the sign-in route once, and a failed or non-ok response only logs an error. */
    method HandleRegister(response: HttpOutcome) returns (effects: Effects)
      requires Valid()
      ensures formData["password"] != formData["confirmPassword"] ==>
        effects == Effects([MismatchAlert], None, [], 0)
      ensures formData["password"] == formData["confirmPassword"] ==>
        && effects.alerts == []
        && effects.request == Some(RequestBody(formData))
        && effects.navigations == (if response == Response(true) then [SignInRoute] else [])
        && effects.errorsLogged == (if response == Response(true) then 0 else 1)
    {
      var password := formData["password"];
      var confirmPassword := formData["confirmPassword"];
      if password != confirmPassword {
        return Effects([MismatchAlert], None, [], 0);
      }
      effects := Effects([], Some(RequestBody(formData)), [], 0);
      match response
      case Response(true) =>
        effects := effects.(navigations := effects.navigations + [SignInRoute]);
      case Response(false) =>
        effects := effects.(errorsLogged := effects.errorsLogged + 1);
      case NetworkError =>
        effects := effects.(errorsLogged := effects.errorsLogged + 1);
    }
  }

  /** Two clicks on the eye icon restore the original visibility. */
  method ToggleTwice(form: RegisterForm)
    modifies form
    ensures form.show == old(form.show) && form.formData == old(form.formData)
  {
    form.HandleClick();
    form.HandleClick();
  }
}
