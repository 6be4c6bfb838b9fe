/** The administrator's user list: fetched only for an administrator, with a
    Delete button on every row but the administrator's own. */
module Admin {
  import opened Wrappers
  import opened JsValue
  import opened Web
  import opened Rows

  /** `` `Failed to delete user: ${errorData.message || 'Unknown error'}` `` */
  function DeleteFailure(errorData: Record): (message: string)
    ensures var m := Prop(errorData, "message");
      message == "Failed to delete user: " + (if Truthy(m) then ToStr(m) else "Unknown error")
  {
    "Failed to delete user: " + ToStr(Or(Prop(errorData, "message"), Str("Unknown error")))
  }

  /** What the page renders, in order of precedence. */
  datatype Screen = Loading | ErrorBanner(message: Value) | NotAuthorized | NoUsers | UserTable

  class AdminUsers {
    var users: seq<Record>
    var error: Value
    var loading: bool
    /** `decoded.isAdmin` */
    var isAdmin: Value
    /** `decoded.userId`; `null` until the token is read. */
    var loggedInUserId: Value
    /** Every request issued, oldest first. */
    var requests: seq<Request>
    /** The route `navigate` last went to. */
    var location: Option<string>

    constructor ()
      ensures users == [] && error == Str("") && loading && isAdmin == Bool(false) && loggedInUserId == Null
      ensures requests == [] && location == None
    {
      users, error, loading, isAdmin, loggedInUserId := [], Str(""), true, Bool(false), Null;
      requests, location := [], None;
    }

    /** What `fetchUsers` does with the reply to the list request. */
    method Apply(reply: Reply<seq<Record>>)
      modifies this`users, this`error, this`location
      ensures reply.Ok() && reply.body.Some? ==>
        users == reply.body.value && error == old(error) && location == old(location)
      ensures !(reply.Ok() && reply.body.Some?) ==> users == old(users)
      ensures reply.Replied? && reply.status == 401 ==> location == Some("/login") && error == old(error)
      ensures reply.Replied? && !reply.Ok() && reply.status != 401 ==>
        error == Str("Failed to fetch users") && location == old(location)
      ensures reply.Unreachable? || (reply.Ok() && reply.body.None?) ==>
        error == Str(NetworkError) && location == old(location)
    {
      if reply.Unreachable? {
        error := Str(NetworkError);
      } else if reply.Ok() {
        if reply.body.None? {
          error := Str(NetworkError);
        } else {
          users := reply.body.value;
        }
      } else if reply.status == 401 {
        location := Some("/login");
      } else {
        error := Str("Failed to fetch users");
      }
    }

    /** `fetchUsers`: read the claims (`None` when the token does not decode);
        a non-administrator is sent to the profile page and the list is never
        requested; an administrator's request fills the list. Loading ends in
        every case. */
    method FetchUsers(claims: Option<Claims>, reply: Reply<seq<Record>>)
      modifies this`users, this`error, this`location, this`loading, this`isAdmin,
        this`loggedInUserId, this`requests
      ensures !loading
      ensures claims.None? ==>
        error == Str(NetworkError) && requests == old(requests) && users == old(users) &&
        isAdmin == old(isAdmin) && loggedInUserId == old(loggedInUserId) && location == old(location)
      ensures claims.Some? ==> isAdmin == claims.value.isAdmin && loggedInUserId == claims.value.userId
      ensures claims.Some? && !Truthy(claims.value.isAdmin) ==>
        location == Some("/profile") && requests == old(requests) && users == old(users) &&
        error == old(error)
      ensures claims.Some? && Truthy(claims.value.isAdmin) ==>
        requests == old(requests) + [Request(GET, Server + "/auth/users", None)]
      ensures claims.Some? && Truthy(claims.value.isAdmin) && reply.Ok() && reply.body.Some? ==>
        users == reply.body.value && error == old(error) && location == old(location)
      ensures claims.Some? && Truthy(claims.value.isAdmin) && !(reply.Ok() && reply.body.Some?) ==>
        users == old(users)
      ensures claims.Some? && Truthy(claims.value.isAdmin) && reply.Replied? && reply.status == 401 ==>
        location == Some("/login") && error == old(error)
      ensures claims.Some? && Truthy(claims.value.isAdmin) && reply.Replied? && !reply.Ok() && reply.status != 401 ==>
        error == Str("Failed to fetch users") && location == old(location)
      ensures claims.Some? && Truthy(claims.value.isAdmin) && (reply.Unreachable? || (reply.Ok() && reply.body.None?)) ==>
        error == Str(NetworkError) && location == old(location)
      ensures requests != old(requests) || users != old(users) ==> Truthy(isAdmin)
    {
      loading := true;
      if claims.None? {
        error := Str(NetworkError);
      } else {
        isAdmin, loggedInUserId := claims.value.isAdmin, claims.value.userId;
        if !Truthy(isAdmin) {
          location := Some("/profile");
        } else {
          requests := requests + [Request(GET, Server + "/auth/users", None)];
          Apply(reply);
        }
      }
      loading := false;
    }

    /** The row guard `loggedInUserId !== user._id`: whether a row has a
        Delete button. */
    predicate CanDelete(row: Record)
      reads this`loggedInUserId
    {
      !StrictEq(loggedInUserId, IdOf(row))
    }

    /** The administrator's own row never offers Delete, and any row whose id
        differs from theirs does. What this adds to the guard itself is that
        `!==` agrees with plain inequality for every id but NaN. */
    lemma OwnRowHasNoDelete(row: Record)
      ensures StrictEq(IdOf(row), loggedInUserId) ==> !CanDelete(row)
      ensures !IdOf(row).NaN? && IdOf(row) != loggedInUserId ==> CanDelete(row)
    {
    }

    /** What `handleDelete` does with the reply to the DELETE: success drops
        the user, 401 goes to login, any other status shows the server's
        message or "Unknown error". */
    method ApplyDelete(id: Value, reply: Reply<Record>)
      modifies this`users, this`error, this`location
      ensures reply.Ok() ==> users == RemoveId(old(users), id) && error == old(error) && location == old(location)
      ensures !reply.Ok() ==> users == old(users)
      ensures reply.Replied? && reply.status == 401 ==> location == Some("/login") && error == old(error)
      ensures reply.Replied? && !reply.Ok() && reply.status != 401 && reply.body.Some? ==>
        error == Str(DeleteFailure(reply.body.value)) && location == old(location)
      ensures reply.Unreachable? || (!reply.Ok() && reply.status != 401 && reply.body.None?) ==>
        error == Str(NetworkError) && location == old(location)
    {
      if reply.Unreachable? {
        error := Str(NetworkError);
      } else if reply.Ok() {
        users := RemoveId(users, id);
      } else if reply.status == 401 {
        location := Some("/login");
      } else if reply.body.None? {
        error := Str(NetworkError);
      } else {
        error := Str(DeleteFailure(reply.body.value));
      }
    }

    /** `handleDelete(id)`, reachable only from a row with a Delete button: a
        declined confirmation changes nothing and sends nothing; otherwise the
        DELETE is sent and its reply applied. The administrator's own row
        survives any delete. */
    method HandleDelete(id: Value, confirmed: bool, reply: Reply<Record>)
      requires !StrictEq(loggedInUserId, id)
      modifies this`users, this`error, this`location, this`requests
      ensures !confirmed ==>
        users == old(users) && error == old(error) && location == old(location) && requests == old(requests)
      ensures confirmed ==> requests == old(requests) + [Request(DELETE, UserUrl(id), None)]
      ensures confirmed && reply.Ok() ==>
        users == RemoveId(old(users), id) && error == old(error) && location == old(location)
      ensures confirmed && !reply.Ok() ==> users == old(users)
      ensures confirmed && reply.Replied? && reply.status == 401 ==> location == Some("/login") && error == old(error)
      ensures confirmed && reply.Replied? && !reply.Ok() && reply.status != 401 && reply.body.Some? ==>
        error == Str(DeleteFailure(reply.body.value)) && location == old(location)
      ensures confirmed && (reply.Unreachable? || (!reply.Ok() && reply.status != 401 && reply.body.None?)) ==>
        error == Str(NetworkError) && location == old(location)
      ensures forall r :: r in old(users) && StrictEq(IdOf(r), loggedInUserId) ==> r in users
    {
      if confirmed {
        requests := requests + [Request(DELETE, UserUrl(id), None)];
        ghost var before := users;
        ApplyDelete(id, reply);
        forall r | r in before && StrictEq(IdOf(r), loggedInUserId)
          ensures r in users
        {
          RemoveIdMembers(before, id, r);
        }
      }
    }

    /** The render guards, in the order they are tested, then the table or
        the empty message. */
    function Render(): (s: Screen)
      reads this`loading, this`error, this`isAdmin, this`users
      ensures s == Loading <==> loading
      ensures s.ErrorBanner? <==> !loading && Truthy(error)
      ensures s == NotAuthorized <==> !loading && !Truthy(error) && !Truthy(isAdmin)
      ensures s == NoUsers <==> !loading && !Truthy(error) && Truthy(isAdmin) && users == []
      ensures s == UserTable <==> !loading && !Truthy(error) && Truthy(isAdmin) && |users| > 0
    {
      if loading then Loading
      else if Truthy(error) then ErrorBanner(error)
      else if !Truthy(isAdmin) then NotAuthorized
      else if |users| > 0 then UserTable
      else NoUsers
    }
  }

  /** With unique ids, a successful delete removes exactly the chosen user and
      keeps the others in their order. */
  lemma DeleteRemovesExactlyOne(users: seq<Record>, k: nat)
    requires k < |users| && !IdOf(users[k]).NaN?
    requires forall i :: 0 <= i < |users| && i != k ==> IdOf(users[i]) != IdOf(users[k])
    ensures RemoveId(users, IdOf(users[k])) == users[..k] + users[k + 1..]
  {
    RemoveOnlyMatch(users, IdOf(users[k]), k);
  }
}
