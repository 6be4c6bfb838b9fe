/** The administrator's editor for one user, named by the route's `id`: loads
    the user, defaults the page size, validates five fields and saves with PUT. */
module UserEditor {
  import opened Wrappers
  import opened JsValue
  import opened Patterns
  import opened JsParseInt
  import opened Forms
  import opened Web

  /** The page size a user gets when the stored one is falsy or missing. */
  const DefaultPageSize := 12

  /** `{ page_size: n }` */
  function PageSizePrefs(n: Value): (prefs: Value)
    ensures prefs.Obj? && prefs.fields == map["page_size" := n]
  {
    Obj(map["page_size" := n])
  }

  /** The user the editor shows after a load: the server's record with
      `preferences.page_size` taken from `Preferences.Page_size`, or 12 when that
      is falsy or missing. */
  function LoadedUser(u: Record): (r: Record)
    ensures r.Keys == u.Keys + {"preferences"}
    ensures var stored := OptionalProp(Prop(u, "Preferences"), "Page_size");
      r["preferences"] == PageSizePrefs(if Truthy(stored) then stored else Num(DefaultPageSize))
    ensures forall k :: k in u && k != "preferences" ==> r[k] == u[k]
  {
    u["preferences" := PageSizePrefs(Or(OptionalProp(Prop(u, "Preferences"), "Page_size"), Num(DefaultPageSize)))]
  }

  /** `user.preferences?.page_size` */
  function PageSizeOf(u: Record): Value {
    OptionalProp(Prop(u, "preferences"), "page_size")
  }

  /** The `tempErrors` object `validate()` builds. The page size is read from
      `preferences`, not from the top-level field the input writes. */
  function EditUserErrors(u: Record): Errors
  {
    map[
      "user_name" := RequiredCheck(Prop(u, "user_name"), "Username is required"),
      "first_name" := RequiredCheck(Prop(u, "first_name"), "First name is required"),
      "last_name" := RequiredCheck(Prop(u, "last_name"), "Last name is required"),
      "email" := EmailCheck(Prop(u, "email"), "Email is required", "Invalid email format"),
      "page_size" := DigitsCheck(PageSizeOf(u), "Page size is required", "Page size must be a number")
    ]
  }

  /** The map always has exactly the five keys, whatever the fields hold. */
  lemma EditUserErrorKeys(u: Record)
    ensures EditUserErrors(u).Keys == {"user_name", "first_name", "last_name", "email", "page_size"}
  {
  }

  /** The user is valid exactly when the three names are truthy, the email is in
      the pattern's language and `preferences.page_size` is a digit string or a
      positive number. */
  lemma EditUserValidIff(u: Record)
    ensures AllClear(EditUserErrors(u)) <==>
      Truthy(Prop(u, "user_name")) && Truthy(Prop(u, "first_name")) && Truthy(Prop(u, "last_name")) &&
      EmailAccepted(Prop(u, "email")) && DigitsAccepted(PageSizeOf(u))
  {
    var e := EditUserErrors(u);
    EmailCheckMeaning(Prop(u, "email"), "Email is required", "Invalid email format");
    DigitsCheckMeaning(PageSizeOf(u), "Page size is required", "Page size must be a number");
    if AllClear(e) {
      assert e["user_name"] == "" && e["first_name"] == "" && e["last_name"] == "";
      assert e["email"] == "" && e["page_size"] == "";
    }
  }

  /** A freshly loaded user never fails on the page size for want of one: the
      default 12 passes, and a stored page size is checked as it is. */
  lemma LoadedPageSize(u: Record)
    ensures var stored := OptionalProp(Prop(u, "Preferences"), "Page_size");
      EditUserErrors(LoadedUser(u))["page_size"] ==
        if !Truthy(stored) || DigitsAccepted(stored) then "" else "Page size must be a number"
  {
    var stored := OptionalProp(Prop(u, "Preferences"), "Page_size");
    var v := PageSizeOf(LoadedUser(u));
    assert v == (if Truthy(stored) then stored else Num(DefaultPageSize));
    DigitsCheckMeaning(v, "Page size is required", "Page size must be a number");
  }

  /** `handleChange`: the named field takes the typed text, and a change to the
      page size also sets `preferences.page_size` to `parseInt(value, 10)`. */
  function ChangedUser(u: Record, name: string, value: string): (r: Record)
    requires Prop(u, "preferences").Obj?
    ensures Prop(r, "preferences").Obj?
  {
    var prefs := Prop(u, "preferences");
    u[name := Str(value)]["preferences" :=
      if name == "page_size" then Obj(prefs.fields["page_size" := ParseInt(value, 10)]) else prefs]
  }

  /** Only the named field changes; `preferences` changes only for the page
      size, and then only in its `page_size`. */
  lemma ChangedUserFields(u: Record, name: string, value: string)
    requires Prop(u, "preferences").Obj?
    ensures var r := ChangedUser(u, name, value);
      && r.Keys == u.Keys + {name, "preferences"}
      && (name != "preferences" ==> Prop(r, name) == Str(value))
      && (forall k :: k != name && k != "preferences" ==> Prop(r, k) == Prop(u, k))
      && (name != "page_size" ==> Prop(r, "preferences") == Prop(u, "preferences"))
      && (name == "page_size" ==>
            Prop(r, "preferences") == Obj(Prop(u, "preferences").fields["page_size" := ParseInt(value, 10)]))
  {
  }

  /** After the page size is typed, the check sees the parsed number: a
      positive one passes, a negative one is "not a number", and 0 or NaN (an
      empty or non-numeric text) is "required". */
  lemma PageSizeChangeMessages(u: Record, value: string)
    requires Prop(u, "preferences").Obj?
    ensures var v := ParseInt(value, 10);
      EditUserErrors(ChangedUser(u, "page_size", value))["page_size"] ==
        if v.Num? && v.n > 0 then "" else if v.Num? && v.n < 0 then "Page size must be a number"
        else "Page size is required"
  {
    var r := ChangedUser(u, "page_size", value);
    assert PageSizeOf(r) == ParseInt(value, 10);
    ParsedDigitsCheck(value, 10, "Page size is required", "Page size must be a number");
  }

  /** The user `handleClear` puts in place. */
  const ClearedUser: Record := map[
    "user_name" := Str(""), "first_name" := Str(""), "last_name" := Str(""), "email" := Str(""),
    "preferences" := PageSizePrefs(Num(DefaultPageSize))]

  /** After Clear the four text fields are "required" and the page size passes. */
  lemma ClearedErrors()
    ensures EditUserErrors(ClearedUser) == map[
      "user_name" := "Username is required", "first_name" := "First name is required",
      "last_name" := "Last name is required", "email" := "Email is required", "page_size" := ""]
  {
    assert PageSizeOf(ClearedUser) == Num(12);
    TestDigitsOnNumber(12);
  }

  /** `JSON.stringify({ ...user, Preferences: user.preferences })` */
  function UpdateBody(u: Record): (body: Record)
    ensures body.Keys == u.Keys + {"Preferences"}
    ensures body["Preferences"] == Prop(u, "preferences")
  {
    u["Preferences" := Prop(u, "preferences")]
  }

  /** The body keeps every other field of the user as it is. */
  lemma UpdateBodyFields(u: Record)
    ensures forall k :: k in u && k != "Preferences" ==> UpdateBody(u)[k] == u[k]
  {
  }

  /** What the page renders instead of the form, in order of precedence. */
  datatype Screen = Loading | ErrorBanner(message: Value) | NotFound | EditView

  class EditUser {
    /** The route's `id`. */
    const routeId: string
    /** `None` until a load succeeds (`null`). */
    var user: Option<Record>
    var error: Value
    var loading: bool
    var errors: Errors
    /** Every request issued, oldest first. */
    var requests: seq<Request>
    /** The route `navigate` last went to. */
    var location: Option<string>

    /** A shown user always carries a `preferences` object. */
    predicate Valid()
      reads this`user
    {
      user.Some? ==> Prop(user.value, "preferences").Obj?
    }

    constructor (routeId: string)
      ensures Valid() && this.routeId == routeId && user == None
      ensures error == Str("") && loading && errors == map[] && requests == [] && location == None
    {
      this.routeId := routeId;
      user, error, loading, errors := None, Str(""), true, map[];
      requests, location := [], None;
    }

    /** The mount effect: fetch the user; on success show it with its page
        size defaulted, on 401 go to login, otherwise show an error; loading
        ends in every case. */
    method FetchUser(reply: Reply<Record>)
      requires Valid()
      modifies this`user, this`error, this`loading, this`requests, this`location
      ensures Valid() && !loading
      ensures requests == old(requests) + [Request(GET, UserUrl(Str(routeId)), None)]
      ensures reply.Ok() && reply.body.Some? ==>
        user == Some(LoadedUser(reply.body.value)) && error == old(error) && location == old(location)
      ensures reply.Replied? && reply.status == 401 ==>
        location == Some("/login") && user == old(user) && error == old(error)
      ensures reply.Replied? && !reply.Ok() && reply.status != 401 ==>
        error == Str("Failed to fetch user") && user == old(user) && location == old(location)
      ensures reply.Unreachable? || (reply.Ok() && reply.body.None?) ==>
        error == Str(NetworkError) && user == old(user) && location == old(location)
    {
      loading := true;
      requests := requests + [Request(GET, UserUrl(Str(routeId)), None)];
      if reply.Unreachable? {
        error := Str(NetworkError);
      } else if reply.Ok() {
        if reply.body.None? {
          error := Str(NetworkError);
        } else {
          user := Some(LoadedUser(reply.body.value));
        }
      } else if reply.status == 401 {
        location := Some("/login");
      } else {
        error := Str("Failed to fetch user");
      }
      loading := false;
    }

    /** `validate()`: store the messages and report whether all are `''`. */
    method Validate() returns (valid: bool)
      requires user.Some?
      modifies this`errors
      ensures errors == EditUserErrors(user.value)
      ensures valid == AllClear(errors)
    {
      errors := EditUserErrors(user.value);
      valid := AllClear(errors);
    }

    /** `handleChange` */
    method HandleChange(name: string, value: string)
      requires Valid() && user.Some?
      modifies this`user
      ensures Valid() && user == Some(ChangedUser(old(user.value), name, value))
    {
      user := Some(ChangedUser(user.value, name, value));
    }

    /** What `handleUpdate` does with the reply: success goes back to the user
        list, 401 to login, any other status shows an error. */
    method Apply(reply: Reply<Record>)
      modifies this`error, this`location
      ensures reply.Ok() ==> location == Some("/admin-users") && error == old(error)
      ensures reply.Replied? && reply.status == 401 ==> location == Some("/login") && error == old(error)
      ensures reply.Replied? && !reply.Ok() && reply.status != 401 ==>
        error == Str("Failed to update user") && location == old(location)
      ensures reply.Unreachable? ==> error == Str(NetworkError) && location == old(location)
    {
      if reply.Unreachable? {
        error := Str(NetworkError);
      } else if reply.Ok() {
        location := Some("/admin-users");
      } else if reply.status == 401 {
        location := Some("/login");
      } else {
        error := Str("Failed to update user");
      }
    }

    /** The `try` block of `handleUpdate`: PUT the user, with `Preferences`
        copied from `preferences`, on the route's id, then apply the reply. */
    method Send(reply: Reply<Record>)
      requires user.Some?
      modifies this`error, this`requests, this`location
      ensures requests == old(requests) + [Request(PUT, UserUrl(Str(routeId)), Some(UpdateBody(user.value)))]
      ensures reply.Ok() ==> location == Some("/admin-users") && error == old(error)
      ensures reply.Replied? && reply.status == 401 ==> location == Some("/login") && error == old(error)
      ensures reply.Replied? && !reply.Ok() && reply.status != 401 ==>
        error == Str("Failed to update user") && location == old(location)
      ensures reply.Unreachable? ==> error == Str(NetworkError) && location == old(location)
    {
      requests := requests + [Request(PUT, UserUrl(Str(routeId)), Some(UpdateBody(user.value)))];
      Apply(reply);
    }

    /** `handleUpdate`: validate, and PUT the user on the route's id only when
        valid. */
    method HandleUpdate(reply: Reply<Record>)
      requires user.Some?
      modifies this`errors, this`error, this`requests, this`location
      ensures errors == EditUserErrors(user.value)
      ensures !AllClear(errors) ==>
        requests == old(requests) && error == old(error) && location == old(location)
      ensures AllClear(errors) ==>
        requests == old(requests) + [Request(PUT, UserUrl(Str(routeId)), Some(UpdateBody(user.value)))]
      ensures AllClear(errors) && reply.Ok() ==> location == Some("/admin-users")
      ensures AllClear(errors) && reply.Replied? && !reply.Ok() && reply.status != 401 ==>
        error == Str("Failed to update user")
    {
      var valid := Validate();
      if valid {
        Send(reply);
      }
    }

    /** `handleClear`: a blank user with the default page size, and no messages.
        The new state does not depend on the old one. */
    method HandleClear()
      modifies this`user, this`errors
      ensures Valid() && user == Some(ClearedUser) && errors == map[]
    {
      user, errors := Some(ClearedUser), map[];
    }

    /** The render guards, in the order they are tested. */
    function Render(): (s: Screen)
      reads this`loading, this`error, this`user
      ensures s == Loading <==> loading
      ensures s.ErrorBanner? <==> !loading && Truthy(error)
      ensures s == NotFound <==> !loading && !Truthy(error) && user.None?
      ensures s == EditView <==> !loading && !Truthy(error) && user.Some?
    {
      if loading then Loading
      else if Truthy(error) then ErrorBanner(error)
      else if user.None? then NotFound
      else EditView
    }
  }
}
