/** The browser side of every component: requests it issues, the replies it
    gets, and the decoded session token. */
module Web {
  import opened Wrappers
  import opened JsValue

  datatype Verb = GET | POST | PUT | DELETE

  /** A `fetch` call: its method, URL and the object passed to `JSON.stringify`
      for its body. Headers are not kept. */
  datatype Request = Request(verb: Verb, url: string, body: Option<Record>)

  /** What a `fetch` came to: `Unreachable` when the promise rejected, otherwise
      the status and the parsed JSON body, `None` when `response.json()` would
      reject. `B` is the part of the body the component reads. */
  datatype Reply<B> = Unreachable | Replied(status: int, body: Option<B>) {
    /** `response.ok` */
    predicate Ok() {
      Replied? && 200 <= status <= 299
    }
  }

  /** The claims `jwtDecode` reads from the stored token. */
  datatype Claims = Claims(isAdmin: Value, userId: Value)

  /** The server every component but the two login forms calls. */
  const Server := "http://localhost:9000"

  /** `http://localhost:9000/auth/users/${id}`: a template literal applies `String()`. */
  function UserUrl(id: Value): string {
    Server + "/auth/users/" + ToStr(id)
  }

  const NetworkError := "Network error. Please try again."
}

/** The shape shared by every `validate()`: each field's check yields a message,
    `''` when the field is fine, and the form is valid when every message is `''`. */
module Forms {
  import opened JsValue
  import opened Chars
  import opened Patterns
  import opened JsParseInt

  /** The `tempErrors` object: field name to message. */
  type Errors = map<string, string>

  /** `Object.values(tempErrors).every(x => x === '')` */
  predicate AllClear(errors: Errors) {
    forall k :: k in errors ==> errors[k] == ""
  }

  /** `v ? '' : missing` */
  function RequiredCheck(v: Value, missing: string): string {
    if Truthy(v) then "" else missing
  }

  /** `v ? (/^\d+$/.test(v) ? '' : invalid) : missing` */
  function DigitsCheck(v: Value, missing: string, invalid: string): string {
    if Truthy(v) then (if TestDigits(v) then "" else invalid) else missing
  }

  /** `v ? (/^[^\s@]+@[^\s@]+\.[^\s@]+$/.test(v) ? '' : invalid) : missing` */
  function EmailCheck(v: Value, missing: string, invalid: string): string {
    if Truthy(v) then (if IsEmail(ToStr(v)) then "" else invalid) else missing
  }

  /** What the digits check lets through: a positive integer, or a string of
      ASCII digits ("0" and "007" included). */
  predicate DigitsAccepted(v: Value) {
    match v
    case Num(n) => n > 0
    case Str(s) => AllDigits(s)
    case _ => false
  }

  /** What the email check lets through: a string in the pattern's language. */
  ghost predicate EmailAccepted(v: Value) {
    v.Str? && MatchesEmailPattern(v.s)
  }

  /** The digits check asks for a value when it is falsy (`''`, `0`, NaN,
      `undefined`), accepts a positive integer or a digit string, and calls
      anything else (a negative number, "-1", "2.5", `true`) not a number. */
  lemma DigitsCheckMeaning(v: Value, missing: string, invalid: string)
    ensures DigitsCheck(v, missing, invalid) ==
      if !Truthy(v) then missing else if DigitsAccepted(v) then "" else invalid
  {
    match v
    case Num(n) => TestDigitsOnNumber(n);
    case Bool(b) => assert !IsDigit(ToStr(v)[0]);
    case Obj(_) => assert !IsDigit(ToStr(v)[0]);
    case _ =>
  }

  /** The email check asks for a value when it is falsy and accepts exactly the
      strings in the pattern's language. */
  lemma EmailCheckMeaning(v: Value, missing: string, invalid: string)
    ensures EmailCheck(v, missing, invalid) ==
      if !Truthy(v) then missing else if EmailAccepted(v) then "" else invalid
  {
    IsEmailMatchesPattern(ToStr(v));
    if !v.Str? {
      OnlyStringsAreEmails(v);
    }
  }

  /** A field that holds a parseInt result passes the digits check exactly
      when it is positive, is "not a number" when negative and is missing when
      0 or NaN. */
  lemma ParsedDigitsCheck(raw: string, radix: int, missing: string, invalid: string)
    ensures var v := ParseInt(raw, radix);
      DigitsCheck(v, missing, invalid) ==
        if v.Num? && v.n > 0 then "" else if v.Num? && v.n < 0 then invalid else missing
  {
    DigitsCheckMeaning(ParseInt(raw, radix), missing, invalid);
  }
}

/** Lists of rows held by the list components, and the `filter` that drops a
    deleted row. */
module Rows {
  import opened JsValue

  /** `row._id` */
  function IdOf(row: Record): Value {
    Prop(row, "_id")
  }

  /** The filter's test `row._id !== id`. */
  predicate Kept(row: Record, id: Value) {
    !StrictEq(IdOf(row), id)
  }

  /** `rows.filter(row => row._id !== id)` */
  function RemoveId(rows: seq<Record>, id: Value): (kept: seq<Record>)
    ensures |kept| <= |rows|
  {
    if rows == [] then []
    else (if Kept(rows[0], id) then [rows[0]] else []) + RemoveId(rows[1..], id)
  }

  /** A row survives exactly when it was there and its `_id` is not `id`. */
  lemma {:induction false} RemoveIdMembers(rows: seq<Record>, id: Value, r: Record)
    ensures r in RemoveId(rows, id) <==> r in rows && Kept(r, id)
  {
    if rows != [] {
      RemoveIdMembers(rows[1..], id, r);
      assert rows == [rows[0]] + rows[1..];
    }
  }

  /** The filter works row by row, so it keeps the order of the rows it keeps. */
  lemma {:induction false} RemoveIdAppend(a: seq<Record>, b: seq<Record>, id: Value)
    ensures RemoveId(a + b, id) == RemoveId(a, id) + RemoveId(b, id)
  {
    if a == [] {
      assert a + b == b;
    } else {
      var head := if Kept(a[0], id) then [a[0]] else [];
      assert (a + b)[0] == a[0];
      assert (a + b)[1..] == a[1..] + b;
      RemoveIdAppend(a[1..], b, id);
      calc {
        RemoveId(a + b, id);
        head + RemoveId(a[1..] + b, id);
        head + (RemoveId(a[1..], id) + RemoveId(b, id));
        (head + RemoveId(a[1..], id)) + RemoveId(b, id);
        RemoveId(a, id) + RemoveId(b, id);
      }
    }
  }

  /** When no row carries the id, nothing is removed. */
  lemma {:induction false} RemoveIdNoMatch(rows: seq<Record>, id: Value)
    requires forall i :: 0 <= i < |rows| ==> Kept(rows[i], id)
    ensures RemoveId(rows, id) == rows
  {
    if rows != [] {
      RemoveIdNoMatch(rows[1..], id);
    }
  }

  /** When exactly one row carries the id, exactly that row goes and the others
      stay in their order. */
  lemma {:induction false} RemoveOnlyMatch(rows: seq<Record>, id: Value, k: nat)
    requires k < |rows| && !Kept(rows[k], id)
    requires forall i :: 0 <= i < |rows| && i != k ==> Kept(rows[i], id)
    ensures RemoveId(rows, id) == rows[..k] + rows[k + 1..]
  {
    var tail := rows[1..];
    if k == 0 {
      forall i | 0 <= i < |tail| ensures Kept(tail[i], id) {
        assert tail[i] == rows[i + 1];
      }
      RemoveIdNoMatch(tail, id);
    } else {
      forall i | 0 <= i < |tail| && i != k - 1 ensures Kept(tail[i], id) {
        assert tail[i] == rows[i + 1];
      }
      RemoveOnlyMatch(tail, id, k - 1);
      assert rows[..k] == [rows[0]] + tail[..k - 1];
      assert rows[k + 1..] == tail[k..];
    }
  }
}
