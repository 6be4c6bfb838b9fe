/** The login page: two required fields and a submit that posts only a
    filled-in form, keeping the returned token, username and role. */
module Login {
  import opened Wrappers
  import opened JsValue
  import opened Forms
  import opened Web
  import Registration

  /** The `tempErrors` object `validate()` builds. */
  function LoginErrors(user_name: string, password: string): Errors
  {
    map[
      "user_name" := RequiredCheck(Str(user_name), "Username is required"),
      "password" := RequiredCheck(Str(password), "Password is required")
    ]
  }

  /** The map always has exactly the two keys, whatever the fields hold. */
  lemma LoginErrorKeys(user_name: string, password: string)
    ensures LoginErrors(user_name, password).Keys == {"user_name", "password"}
  {
  }

  /** The form is valid exactly when both fields are filled in, and each empty
      field gets its own "required" message. */
  lemma LoginValidIff(user_name: string, password: string)
    ensures AllClear(LoginErrors(user_name, password)) <==> user_name != "" && password != ""
    ensures LoginErrors(user_name, password)["user_name"] == "Username is required" <==> user_name == ""
    ensures LoginErrors(user_name, password)["password"] == "Password is required" <==> password == ""
  {
    var e := LoginErrors(user_name, password);
    if AllClear(e) {
      assert e["user_name"] == "" && e["password"] == "";
    }
  }

  /** Login checks no length: a password of one to five characters passes the
      login form while the registration form calls it too short. */
  lemma ShortPasswordOnlyFailsRegistration(f: Registration.Fields)
    requires f.user_name != "" && 0 < |f.password| < 6
    ensures AllClear(LoginErrors(f.user_name, f.password))
    ensures Registration.RegistrationErrors(f)["password"] == "Password must be at least 6 characters"
    ensures !AllClear(Registration.RegistrationErrors(f))
  {
    LoginValidIff(f.user_name, f.password);
    Registration.RegistrationEmailPasswordMessages(f);
    assert Registration.RegistrationErrors(f)["password"] != "";
  }

  /** `localStorage.setItem(key, value)`: the value is stored as `String(value)`. */
  function StoreSession(storage: map<string, string>, data: Record): (next: map<string, string>)
    ensures next.Keys == storage.Keys + {"token", "username", "role"}
    ensures next["token"] == ToStr(Prop(data, "token"))
    ensures next["username"] == ToStr(Prop(data, "username"))
    ensures next["role"] == ToStr(Prop(data, "role"))
    ensures forall k :: k in storage && k !in {"token", "username", "role"} ==> next[k] == storage[k]
  {
    storage["token" := ToStr(Prop(data, "token"))]
           ["username" := ToStr(Prop(data, "username"))]
           ["role" := ToStr(Prop(data, "role"))]
  }

  class LoginForm {
    /** `process.env.REACT_APP_API_BASE_URL` */
    const apiBase: string
    var user_name: string
    var password: string
    /** The banner message; `''` shows nothing. */
    var error: Value
    var errors: Errors
    /** Every request issued, oldest first. */
    var requests: seq<Request>
    /** The route `navigate` last went to. */
    var location: Option<string>
    /** `localStorage` */
    var storage: map<string, string>

    constructor (apiBase: string, storage: map<string, string>)
      ensures this.apiBase == apiBase && this.storage == storage
      ensures user_name == "" && password == ""
      ensures error == Str("") && errors == map[] && requests == [] && location == None
    {
      this.apiBase, this.storage := apiBase, storage;
      user_name, password := "", "";
      error, errors, requests, location := Str(""), map[], [], None;
    }

    /** `validate()`: store the messages and report whether all are `''`. */
    method Validate() returns (valid: bool)
      modifies this`errors
      ensures errors == LoginErrors(user_name, password)
      ensures valid == AllClear(errors)
    {
      errors := LoginErrors(user_name, password);
      valid := AllClear(errors);
    }

    /** The `try` block of `handleSubmit`: post the credentials; on success keep
        the session in storage and go to the products page, otherwise show the
        server's error or a fallback. */
    method Send(reply: Reply<Record>)
      modifies this`error, this`requests, this`location, this`storage
      ensures requests == old(requests) + [Request(POST, apiBase + "/auth/login",
        Some(map["user_name" := Str(user_name), "password" := Str(password)]))]
      ensures reply.Ok() && reply.body.Some? ==>
        storage == StoreSession(old(storage), reply.body.value) &&
        location == Some("/products") && error == old(error)
      ensures reply.Replied? && !reply.Ok() && reply.body.Some? ==>
        error == Or(Prop(reply.body.value, "error"), Str("Login failed")) &&
        location == old(location) && storage == old(storage)
      ensures reply.Unreachable? || reply.body.None? ==>
        error == Str(NetworkError) && location == old(location) && storage == old(storage)
    {
      requests := requests + [Request(POST, apiBase + "/auth/login",
        Some(map["user_name" := Str(user_name), "password" := Str(password)]))];
      if reply.Unreachable? || reply.body.None? {
        error := Str(NetworkError);
      } else if reply.Ok() {
        storage := StoreSession(storage, reply.body.value);
        location := Some("/products");
      } else {
        error := Or(Prop(reply.body.value, "error"), Str("Login failed"));
      }
    }

    /** `handleSubmit`: validate, and send the credentials only when both are
        filled in. */
    method HandleSubmit(reply: Reply<Record>)
      modifies this`errors, this`error, this`requests, this`location, this`storage
      ensures errors == LoginErrors(user_name, password)
      ensures !AllClear(errors) ==>
        requests == old(requests) && error == old(error) &&
        location == old(location) && storage == old(storage)
      ensures AllClear(errors) ==> requests == old(requests) + [Request(POST, apiBase + "/auth/login",
        Some(map["user_name" := Str(user_name), "password" := Str(password)]))]
      ensures AllClear(errors) && reply.Ok() && reply.body.Some? ==>
        storage == StoreSession(old(storage), reply.body.value) &&
        location == Some("/products") && error == old(error)
      ensures AllClear(errors) && !(reply.Ok() && reply.body.Some?) ==>
        storage == old(storage) && location == old(location)
      ensures AllClear(errors) && reply.Replied? && !reply.Ok() && reply.body.Some? ==>
        error == Or(Prop(reply.body.value, "error"), Str("Login failed"))
      ensures AllClear(errors) && (reply.Unreachable? || reply.body.None?) ==>
        error == Str(NetworkError)
    {
      var valid := Validate();
      if valid {
        Send(reply);
      }
    }
  }
}
