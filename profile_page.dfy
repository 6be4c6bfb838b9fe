/** The signed-in user's own profile: loads `/auth/users/me`, keeps an edited
    copy of five fields, validates four of them and saves with PUT. */
module Profile {
  import opened Wrappers
  import opened JsValue
  import opened Patterns
  import opened JsParseInt
  import opened Forms
  import opened Web

  /** The five fields the edit form works on. */
  const EditableKeys: set<string> := {"first_name", "last_name", "email", "birth_date", "page_size"}

  /** The edited copy made from a user record: four top-level fields and
      `preferences?.page_size`. Both the load and Clear build it. */
  function EditableProjection(u: Record): (e: Record)
    ensures e.Keys == EditableKeys
    ensures forall k :: k in EditableKeys && k != "page_size" ==> e[k] == Prop(u, k)
    ensures e["page_size"] == OptionalProp(Prop(u, "preferences"), "page_size")
  {
    map[
      "first_name" := Prop(u, "first_name"), "last_name" := Prop(u, "last_name"),
      "email" := Prop(u, "email"), "birth_date" := Prop(u, "birth_date"),
      "page_size" := OptionalProp(Prop(u, "preferences"), "page_size")
    ]
  }

  /** The `tempErrors` object `validate()` builds from the edited copy. */
  function ProfileErrors(e: Record): Errors
  {
    map[
      "first_name" := RequiredCheck(Prop(e, "first_name"), "First name is required"),
      "last_name" := RequiredCheck(Prop(e, "last_name"), "Last name is required"),
      "email" := EmailCheck(Prop(e, "email"), "Email is required", "Invalid email format"),
      "page_size" := DigitsCheck(Prop(e, "page_size"), "Page size is required", "Page size must be a number")
    ]
  }

  /** The map always has exactly the four keys, whatever the fields hold. */
  lemma ProfileErrorKeys(e: Record)
    ensures ProfileErrors(e).Keys == {"first_name", "last_name", "email", "page_size"}
  {
  }

  /** The edited copy is valid exactly when both names are truthy, the email is
      in the pattern's language and the page size is a digit string or a
      positive number; the birth date is not looked at. */
  lemma ProfileValidIff(e: Record)
    ensures AllClear(ProfileErrors(e)) <==>
      Truthy(Prop(e, "first_name")) && Truthy(Prop(e, "last_name")) &&
      EmailAccepted(Prop(e, "email")) && DigitsAccepted(Prop(e, "page_size"))
  {
    var errs := ProfileErrors(e);
    EmailCheckMeaning(Prop(e, "email"), "Email is required", "Invalid email format");
    DigitsCheckMeaning(Prop(e, "page_size"), "Page size is required", "Page size must be a number");
    if AllClear(errs) {
      assert errs["first_name"] == "" && errs["last_name"] == "";
      assert errs["email"] == "" && errs["page_size"] == "";
    }
  }

  /** The birth date is optional: whatever it holds, the messages are the same. */
  lemma BirthDateOptional(e: Record, b: Value)
    ensures ProfileErrors(e["birth_date" := b]) == ProfileErrors(e)
  {
    var e' := e["birth_date" := b];
    assert Prop(e', "first_name") == Prop(e, "first_name");
    assert Prop(e', "last_name") == Prop(e, "last_name");
    assert Prop(e', "email") == Prop(e, "email");
    assert Prop(e', "page_size") == Prop(e, "page_size");
  }

  /** An email the user typed that is not empty and not in the pattern's
      language reads "Invalid email format". */
  lemma ProfileEmailMessage(e: Record, s: string)
    ensures ProfileErrors(e["email" := Str(s)])["email"] == "Invalid email format" <==>
      s != "" && !MatchesEmailPattern(s)
  {
    EmailCheckMeaning(Str(s), "Email is required", "Invalid email format");
  }

  /** The page size as the user types it: every digit string passes, "0"
      among them. */
  lemma ProfileDigitPageSize(e: Record, s: string)
    requires AllDigits(s)
    ensures ProfileErrors(e["page_size" := Str(s)])["page_size"] == ""
  {
  }

  /** The page size as the user types it: an empty one is "required", and
      "-3" and "2.5" are "not a number". */
  lemma ProfilePageSizeMessages(e: Record)
    ensures ProfileErrors(e["page_size" := Str("")])["page_size"] == "Page size is required"
    ensures ProfileErrors(e["page_size" := Str("-3")])["page_size"] == "Page size must be a number"
    ensures ProfileErrors(e["page_size" := Str("2.5")])["page_size"] == "Page size must be a number"
    ensures ProfileErrors(e["page_size" := Str("0")])["page_size"] == ""
  {
    assert "-3"[0] == '-';
    assert "2.5"[1] == '.';
    ProfileDigitPageSize(e, "0");
  }

  /** `{ page_size: parseInt(editedUser.page_size, 10) }` */
  function ParsedPreferences(e: Record): (prefs: Value)
    ensures prefs.Obj? && prefs.fields.Keys == {"page_size"}
    ensures var p := prefs.fields["page_size"]; p.Num? || p.NaN?
  {
    Obj(map["page_size" := ParseInt(ToStr(Prop(e, "page_size")), 10)])
  }

  /** A page size the form accepts is sent as the number it spells: a digit
      string as its decimal value, so "0" goes out as 0, and a number as
      itself. */
  lemma ParsedPageSize(e: Record)
    requires DigitsAccepted(Prop(e, "page_size"))
    ensures var v := Prop(e, "page_size");
      ParsedPreferences(e).fields["page_size"] ==
        if v.Str? then Num(DigitsValue(v.s, 10)) else v
    ensures Prop(e, "page_size") == Str("0") ==> ParsedPreferences(e).fields["page_size"] == Num(0)
  {
    var v := Prop(e, "page_size");
    if v.Str? {
      ParseDigitString(v.s, 10);
    } else {
      ParseIntRoundTrip(v.n);
    }
  }

  /** `updateData`: the edited copy with `preferences` replaced by the parsed
      page size. */
  function UpdatePayload(e: Record): (body: Record)
    ensures "preferences" in body && body["preferences"] == ParsedPreferences(e)
  {
    e["preferences" := ParsedPreferences(e)]
  }

  /** The payload carries every edited field unchanged, and nothing else but
      `preferences`. */
  lemma UpdatePayloadFields(e: Record)
    ensures UpdatePayload(e).Keys == e.Keys + {"preferences"}
    ensures forall k :: k in e && k != "preferences" ==> UpdatePayload(e)[k] == e[k]
  {
  }

  /** The user after a successful update: `{...user, ...editedUser, preferences}`. */
  function UpdatedUser(u: Record, e: Record): (r: Record)
    ensures "preferences" in r && r["preferences"] == ParsedPreferences(e)
  {
    (u + e)["preferences" := ParsedPreferences(e)]
  }

  /** The updated user takes every edited field, keeps the fields that were not
      edited, and gains nothing else but `preferences`. */
  lemma UpdatedUserFields(u: Record, e: Record)
    ensures UpdatedUser(u, e).Keys == u.Keys + e.Keys + {"preferences"}
    ensures forall k :: k in e && k != "preferences" ==> UpdatedUser(u, e)[k] == e[k]
    ensures forall k :: k in u && k !in e && k != "preferences" ==> UpdatedUser(u, e)[k] == u[k]
  {
  }

  /** After a successful update, Clear shows what was saved: the four edited
      fields as they were typed and the page size as the number it was parsed to. */
  lemma ClearAfterUpdate(u: Record, e: Record)
    requires EditableKeys <= e.Keys
    ensures var c := EditableProjection(UpdatedUser(u, e));
      (forall k :: k in EditableKeys && k != "page_size" ==> c[k] == e[k]) &&
      c["page_size"] == ParsedPreferences(e).fields["page_size"]
  {
    UpdatedUserFields(u, e);
  }

  /** What the page renders instead of the form, in order of precedence. */
  datatype Screen = Loading | ErrorBanner(message: Value) | NotAvailable | ProfileView

  class ProfilePage {
    /** The loaded user record, `None` before the load succeeds (`null`). */
    var user: Option<Record>
    /** The edited copy, present exactly when the user is. */
    var editedUser: Option<Record>
    var error: Value
    var loading: bool
    var isEditing: bool
    var errors: Errors
    /** Every request issued, oldest first. */
    var requests: seq<Request>
    /** The route `navigate` last went to. */
    var location: Option<string>

    /** The copy exists exactly when the user does, and always holds the five
        editable fields. */
    predicate Valid()
      reads this`user, this`editedUser
    {
      (user.Some? <==> editedUser.Some?) &&
      (editedUser.Some? ==> EditableKeys <= editedUser.value.Keys)
    }

    constructor ()
      ensures Valid() && user == None && editedUser == None
      ensures error == Str("") && loading && !isEditing && errors == map[]
      ensures requests == [] && location == None
    {
      user, editedUser := None, None;
      error, loading, isEditing, errors := Str(""), true, false, map[];
      requests, location := [], None;
    }

    /** The mount effect: fetch the profile; on success keep the user and make
        the edited copy from it, on 401 go to login, otherwise show an error;
        loading ends in every case. */
    method FetchUserProfile(reply: Reply<Record>)
      requires Valid()
      modifies this`user, this`editedUser, this`error, this`loading, this`requests, this`location
      ensures Valid() && !loading
      ensures requests == old(requests) + [Request(GET, Server + "/auth/users/me", None)]
      ensures reply.Ok() && reply.body.Some? ==>
        user == Some(reply.body.value) && editedUser == Some(EditableProjection(reply.body.value)) &&
        error == old(error) && location == old(location)
      ensures reply.Replied? && reply.status == 401 ==>
        location == Some("/login") && user == old(user) && editedUser == old(editedUser) && error == old(error)
      ensures reply.Replied? && !reply.Ok() && reply.status != 401 ==>
        error == Str("Failed to fetch profile") && user == old(user) && editedUser == old(editedUser) &&
        location == old(location)
      ensures reply.Unreachable? || (reply.Ok() && reply.body.None?) ==>
        error == Str(NetworkError) && user == old(user) && editedUser == old(editedUser) &&
        location == old(location)
    {
      loading := true;
      requests := requests + [Request(GET, Server + "/auth/users/me", None)];
      if reply.Unreachable? {
        error := Str(NetworkError);
      } else if reply.Ok() {
        if reply.body.None? {
          error := Str(NetworkError);
        } else {
          user := Some(reply.body.value);
          editedUser := Some(EditableProjection(reply.body.value));
        }
      } else if reply.status == 401 {
        location := Some("/login");
      } else {
        error := Str("Failed to fetch profile");
      }
      loading := false;
    }

    /** `validate()`: store the messages and report whether all are `''`. */
    method Validate() returns (valid: bool)
      requires editedUser.Some?
      modifies this`errors
      ensures errors == ProfileErrors(editedUser.value)
      ensures valid == AllClear(errors)
    {
      errors := ProfileErrors(editedUser.value);
      valid := AllClear(errors);
    }

    /** `handleChange`: the named field takes the typed text; every other field
        of the edited copy stays as it was. */
    method HandleChange(name: string, value: string)
      requires Valid() && editedUser.Some?
      modifies this`editedUser
      ensures Valid() && editedUser.Some?
      ensures editedUser.value.Keys == old(editedUser.value.Keys) + {name}
      ensures Prop(editedUser.value, name) == Str(value)
      ensures forall k :: k != name ==> Prop(editedUser.value, k) == Prop(old(editedUser.value), k)
    {
      editedUser := Some(editedUser.value[name := Str(value)]);
    }

    /** What `handleUpdate` does with the reply: on success the user takes the
        edited fields and the parsed page size and editing ends, on 401 go to
        login, otherwise show an error. */
    method Apply(reply: Reply<Record>)
      requires Valid() && user.Some?
      modifies this`user, this`isEditing, this`error, this`location
      ensures Valid() && user.Some?
      ensures reply.Ok() ==>
        user == Some(UpdatedUser(old(user.value), editedUser.value)) && !isEditing &&
        error == old(error) && location == old(location)
      ensures reply.Replied? && reply.status == 401 ==>
        location == Some("/login") && user == old(user) && isEditing == old(isEditing) && error == old(error)
      ensures reply.Replied? && !reply.Ok() && reply.status != 401 ==>
        error == Str("Failed to update profile") && user == old(user) && isEditing == old(isEditing) &&
        location == old(location)
      ensures reply.Unreachable? ==>
        error == Str(NetworkError) && user == old(user) && isEditing == old(isEditing) && location == old(location)
    {
      if reply.Unreachable? {
        error := Str(NetworkError);
      } else if reply.Ok() {
        user := Some(UpdatedUser(user.value, editedUser.value));
        isEditing := false;
      } else if reply.status == 401 {
        location := Some("/login");
      } else {
        error := Str("Failed to update profile");
      }
    }

    /** The `try` block of `handleUpdate`: PUT the payload on the user's id,
        then apply the reply. */
    method Send(reply: Reply<Record>)
      requires Valid() && user.Some?
      modifies this`user, this`isEditing, this`error, this`requests, this`location
      ensures Valid() && user.Some?
      ensures requests == old(requests) + [Request(PUT, UserUrl(Prop(old(user.value), "_id")),
        Some(UpdatePayload(editedUser.value)))]
      ensures reply.Ok() ==>
        user == Some(UpdatedUser(old(user.value), editedUser.value)) && !isEditing &&
        error == old(error) && location == old(location)
      ensures reply.Replied? && reply.status == 401 ==>
        location == Some("/login") && user == old(user) && isEditing == old(isEditing) && error == old(error)
      ensures reply.Replied? && !reply.Ok() && reply.status != 401 ==>
        error == Str("Failed to update profile") && user == old(user) && isEditing == old(isEditing) &&
        location == old(location)
      ensures reply.Unreachable? ==>
        error == Str(NetworkError) && user == old(user) && isEditing == old(isEditing) && location == old(location)
    {
      requests := requests + [Request(PUT, UserUrl(Prop(user.value, "_id")), Some(UpdatePayload(editedUser.value)))];
      Apply(reply);
    }

    /** `handleUpdate`: validate the edited copy and save it only when valid. */
    method HandleUpdate(reply: Reply<Record>)
      requires Valid() && user.Some?
      modifies this`errors, this`user, this`isEditing, this`error, this`requests, this`location
      ensures Valid() && user.Some?
      ensures errors == ProfileErrors(editedUser.value)
      ensures !AllClear(errors) ==>
        requests == old(requests) && user == old(user) && isEditing == old(isEditing) &&
        error == old(error) && location == old(location)
      ensures AllClear(errors) ==>
        requests == old(requests) + [Request(PUT, UserUrl(Prop(old(user.value), "_id")),
          Some(UpdatePayload(editedUser.value)))]
      ensures AllClear(errors) && reply.Ok() ==>
        user == Some(UpdatedUser(old(user.value), editedUser.value)) && !isEditing
    {
      var valid := Validate();
      if valid {
        Send(reply);
      }
    }

    /** `handleClear`: the edited copy goes back to the projection of the
        current user, the same one the load made, and the messages go. */
    method HandleClear()
      requires Valid() && user.Some?
      modifies this`editedUser, this`errors
      ensures Valid()
      ensures editedUser == Some(EditableProjection(user.value)) && errors == map[]
    {
      editedUser := Some(EditableProjection(user.value));
      errors := map[];
    }

    /** The render guards, in the order they are tested. */
    function Render(): (s: Screen)
      reads this`loading, this`error, this`user
      ensures s == Loading <==> loading
      ensures s.ErrorBanner? <==> !loading && Truthy(error)
      ensures s == NotAvailable <==> !loading && !Truthy(error) && user.None?
      ensures s == ProfileView <==> !loading && !Truthy(error) && user.Some?
    {
      if loading then Loading
      else if Truthy(error) then ErrorBanner(error)
      else if user.None? then NotAvailable
      else ProfileView
    }
  }
}
