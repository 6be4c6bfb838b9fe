/** The registration page: six text fields, a `validate()` that fills one
    message per field, and a submit that posts only a valid form. */
module Registration {
  import opened Wrappers
  import opened JsValue
  import opened Patterns
  import opened Forms
  import opened Web

  /** The six `useState` strings of the form. */
  datatype Fields = Fields(
    user_name: string, first_name: string, last_name: string,
    email: string, birth_date: string, password: string)

  /** The `tempErrors` object `validate()` builds. */
  function RegistrationErrors(f: Fields): Errors
  {
    map[
      "user_name" := RequiredCheck(Str(f.user_name), "Username is required"),
      "first_name" := RequiredCheck(Str(f.first_name), "First name is required"),
      "last_name" := RequiredCheck(Str(f.last_name), "Last name is required"),
      "email" := EmailCheck(Str(f.email), "Email is required", "Email is not valid"),
      "birth_date" := RequiredCheck(Str(f.birth_date), "Birth date is required"),
      "password" :=
        if Truthy(Str(f.password))
        then (if |f.password| >= 6 then "" else "Password must be at least 6 characters")
        else "Password is required"
    ]
  }

  /** The map always has exactly the six keys, whatever the fields hold. */
  lemma RegistrationErrorKeys(f: Fields)
    ensures RegistrationErrors(f).Keys == {"user_name", "first_name", "last_name", "email", "birth_date", "password"}
  {
  }

  /** The form is valid exactly when the four plain fields are filled in, the
      email is in the pattern's language and the password has at least six
      characters; the password's content is not checked. */
  lemma RegistrationValidIff(f: Fields)
    ensures AllClear(RegistrationErrors(f)) <==>
      f.user_name != "" && f.first_name != "" && f.last_name != "" &&
      MatchesEmailPattern(f.email) && f.birth_date != "" && |f.password| >= 6
  {
    var e := RegistrationErrors(f);
    EmailCheckMeaning(Str(f.email), "Email is required", "Email is not valid");
    assert e["email"] == "" <==> MatchesEmailPattern(f.email);
    if AllClear(e) {
      assert e["user_name"] == "" && e["first_name"] == "" && e["last_name"] == "";
      assert e["birth_date"] == "" && e["password"] == "";
    }
  }

  /** Each of the four plain fields is "required" exactly when it is empty. */
  lemma RegistrationRequiredMessages(f: Fields)
    ensures var e := RegistrationErrors(f);
      && (e["user_name"] == "Username is required" <==> f.user_name == "")
      && (e["first_name"] == "First name is required" <==> f.first_name == "")
      && (e["last_name"] == "Last name is required" <==> f.last_name == "")
      && (e["birth_date"] == "Birth date is required" <==> f.birth_date == "")
  {
  }

  /** An empty email is "required" and a non-empty one outside the pattern's
      language is "not valid"; an empty password is "required" and a non-empty
      one under six characters is "too short". */
  lemma RegistrationEmailPasswordMessages(f: Fields)
    ensures var e := RegistrationErrors(f);
      && (e["email"] == "Email is required" <==> f.email == "")
      && (e["email"] == "Email is not valid" <==> f.email != "" && !MatchesEmailPattern(f.email))
      && (e["password"] == "Password is required" <==> f.password == "")
      && (e["password"] == "Password must be at least 6 characters" <==> 0 < |f.password| < 6)
  {
    EmailCheckMeaning(Str(f.email), "Email is required", "Email is not valid");
  }

  /** The JSON body of the register request. */
  function RegisterBody(f: Fields): (body: Record)
    ensures body.Keys == {"user_name", "first_name", "last_name", "email", "birth_date", "password"}
    ensures body["user_name"] == Str(f.user_name) && body["first_name"] == Str(f.first_name)
    ensures body["last_name"] == Str(f.last_name) && body["email"] == Str(f.email)
    ensures body["birth_date"] == Str(f.birth_date) && body["password"] == Str(f.password)
  {
    map[
      "user_name" := Str(f.user_name), "first_name" := Str(f.first_name),
      "last_name" := Str(f.last_name), "email" := Str(f.email),
      "birth_date" := Str(f.birth_date), "password" := Str(f.password)
    ]
  }

  class RegistrationForm {
    /** `process.env.REACT_APP_API_BASE_URL` */
    const apiBase: string
    var user_name: string
    var first_name: string
    var last_name: string
    var email: string
    var birth_date: string
    var password: string
    /** The banner message; `''` shows nothing. */
    var error: Value
    var errors: Errors
    /** Every request issued, oldest first. */
    var requests: seq<Request>
    /** The route `navigate` last went to. */
    var location: Option<string>

    function Current(): Fields
      reads this`user_name, this`first_name, this`last_name, this`email, this`birth_date, this`password
    {
      Fields(user_name, first_name, last_name, email, birth_date, password)
    }

    constructor (apiBase: string)
      ensures this.apiBase == apiBase
      ensures Current() == Fields("", "", "", "", "", "")
      ensures error == Str("") && errors == map[] && requests == [] && location == None
    {
      this.apiBase := apiBase;
      user_name, first_name, last_name := "", "", "";
      email, birth_date, password := "", "", "";
      error, errors, requests, location := Str(""), map[], [], None;
    }

    /** `validate()`: store the messages and report whether all are `''`. */
    method Validate() returns (valid: bool)
      modifies this`errors
      ensures errors == RegistrationErrors(Current())
      ensures valid == AllClear(errors)
    {
      errors := RegistrationErrors(Current());
      valid := AllClear(errors);
    }

    /** The `try` block of `handleSubmit`: post the form; on success go to the
        login page, otherwise show the server's error or a fallback. */
    method Send(reply: Reply<Record>)
      modifies this`error, this`requests, this`location
      ensures requests == old(requests) + [Request(POST, apiBase + "/auth/register", Some(RegisterBody(Current())))]
      ensures reply.Ok() && reply.body.Some? ==>
        location == Some("/login") && error == old(error)
      ensures reply.Replied? && !reply.Ok() && reply.body.Some? ==>
        error == Or(Prop(reply.body.value, "error"), Str("Registration failed")) && location == old(location)
      ensures reply.Unreachable? || reply.body.None? ==>
        error == Str(NetworkError) && location == old(location)
    {
      requests := requests + [Request(POST, apiBase + "/auth/register", Some(RegisterBody(Current())))];
      if reply.Unreachable? || reply.body.None? {
        error := Str(NetworkError);
      } else if reply.Ok() {
        location := Some("/login");
      } else {
        error := Or(Prop(reply.body.value, "error"), Str("Registration failed"));
      }
    }

    /** `handleSubmit`: validate, and send the form only when it is valid. */
    method HandleSubmit(reply: Reply<Record>)
      modifies this`errors, this`error, this`requests, this`location
      ensures errors == RegistrationErrors(Current())
      ensures !AllClear(errors) ==>
        requests == old(requests) && error == old(error) && location == old(location)
      ensures AllClear(errors) ==>
        requests == old(requests) + [Request(POST, apiBase + "/auth/register", Some(RegisterBody(Current())))]
      ensures AllClear(errors) && reply.Ok() && reply.body.Some? ==>
        location == Some("/login") && error == old(error)
      ensures AllClear(errors) && reply.Replied? && !reply.Ok() && reply.body.Some? ==>
        error == Or(Prop(reply.body.value, "error"), Str("Registration failed")) && location == old(location)
      ensures AllClear(errors) && (reply.Unreachable? || reply.body.None?) ==>
        error == Str(NetworkError) && location == old(location)
    {
      var valid := Validate();
      if valid {
        Send(reply);
      }
    }
  }
}
