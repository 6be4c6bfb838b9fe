/** The two regular expressions the forms test, written out by hand:
    `/^\d+$/` and `/^[^\s@]+@[^\s@]+\.[^\s@]+$/`. */
module Patterns {
  import opened Chars
  import opened JsValue

  /** The language of `/^\d+$/`: one or more ASCII digits and nothing else. */
  predicate AllDigits(s: string) {
    |s| > 0 && forall i :: 0 <= i < |s| ==> IsDigit(s[i])
  }

  /** `/^\d+$/.test(v)`: `test` converts its argument with `String()` first. */
  predicate TestDigits(v: Value) {
    AllDigits(ToStr(v))
  }

  /** A number passes the digits test exactly when it is not negative. */
  lemma TestDigitsOnNumber(n: int)
    ensures TestDigits(Num(n)) <==> n >= 0
  {
    NatDecimalDigits(if n < 0 then -n else n);
    if n < 0 {
      assert ToStr(Num(n))[0] == '-';
    }
  }

  /** `[^\s@]`: any character but whitespace and `@`. */
  predicate EmailChar(c: char) {
    !IsSpace(c) && c != '@'
  }

  /** `[^\s@]+` matched against the whole of `s`. */
  predicate EmailRun(s: string) {
    |s| > 0 && forall i :: 0 <= i < |s| ==> EmailChar(s[i])
  }

  /** The language of `/^[^\s@]+@[^\s@]+\.[^\s@]+$/`: some split of `s` into
      a run, `@`, a run, `.`, a run. */
  ghost predicate MatchesEmailPattern(s: string) {
    exists i, j ::
      0 < i && i + 1 < j < |s| - 1 && s[i] == '@' && s[j] == '.' &&
      EmailRun(s[..i]) && EmailRun(s[i + 1..j]) && EmailRun(s[j + 1..])
  }

  /** The position of the first `c` in `s`, or `|s|` when there is none. */
  function FirstIndexOf(s: string, c: char): (r: nat)
    ensures r <= |s|
  {
    if |s| == 0 then 0 else if s[0] == c then 0 else 1 + FirstIndexOf(s[1..], c)
  }

  /** No `c` comes before the position found, and there is a `c` at it unless
      it is the end. */
  lemma {:induction false} FirstIndexOfMeaning(s: string, c: char)
    ensures var r := FirstIndexOf(s, c);
      (forall k :: 0 <= k < r ==> s[k] != c) && (r < |s| ==> s[r] == c)
  {
    if |s| > 0 && s[0] != c {
      FirstIndexOfMeaning(s[1..], c);
      var r := FirstIndexOf(s, c);
      forall k | 0 <= k < r
        ensures s[k] != c
      {
        if k > 0 {
          assert s[k] == s[1..][k - 1];
        }
      }
    }
  }

  /** A deterministic test for the email pattern: everything before the first
      `@` is a run, everything after it is a run (so no second `@`), and the
      part after the `@` holds a `.` with a character on either side. */
  predicate IsEmail(s: string) {
    var at := FirstIndexOf(s, '@');
    0 < at && at + 3 < |s| &&
    EmailRun(s[..at]) && EmailRun(s[at + 1..]) && '.' in s[at + 2..|s| - 1]
  }

  /** A slice of a run is a run when it is not empty. */
  lemma EmailRunSlice(t: string, lo: int, hi: int)
    requires EmailRun(t) && 0 <= lo < hi <= |t|
    ensures EmailRun(t[lo..hi])
  {
    forall k | 0 <= k < hi - lo
      ensures EmailChar(t[lo..hi][k])
    {
      assert t[lo..hi][k] == t[lo + k];
    }
  }

  /** Two runs around a `.` make one run. */
  lemma EmailRunJoin(a: string, b: string)
    requires EmailRun(a) && EmailRun(b)
    ensures EmailRun(a + "." + b)
  {
    var t := a + "." + b;
    forall k | 0 <= k < |t|
      ensures EmailChar(t[k])
    {
      if k < |a| {
        assert t[k] == a[k];
      } else if k > |a| {
        assert t[k] == b[k - |a| - 1];
      }
    }
  }

  /** The first `c` is at `i` when `s[i]` is `c` and no earlier character is. */
  lemma {:induction false} FirstIndexOfAt(s: string, c: char, i: nat)
    requires i < |s| && s[i] == c
    requires forall k :: 0 <= k < i ==> s[k] != c
    ensures FirstIndexOf(s, c) == i
  {
    if i > 0 {
      FirstIndexOfAt(s[1..], c, i - 1);
    }
  }

  /** What the hand-written test accepts is in the pattern's language: the
      split at the first `@` and at a `.` inside the domain is a witness. */
  lemma IsEmailSound(s: string)
    requires IsEmail(s)
    ensures MatchesEmailPattern(s)
  {
    var at := FirstIndexOf(s, '@');
    FirstIndexOfMeaning(s, '@');
    var domain := s[at + 1..];
    var inner := s[at + 2..|s| - 1];
    var k :| 0 <= k < |inner| && inner[k] == '.';
    var j := at + 2 + k;
    assert s[j] == inner[k];
    assert s[at + 1..j] == domain[..j - at - 1];
    assert s[j + 1..] == domain[j - at..];
    EmailRunSlice(domain, 0, j - at - 1);
    EmailRunSlice(domain, j - at, |domain|);
    assert 0 < at && at + 1 < j < |s| - 1 && s[at] == '@' && s[j] == '.' &&
      EmailRun(s[..at]) && EmailRun(s[at + 1..j]) && EmailRun(s[j + 1..]);
  }

  /** A split the pattern accepts is one the hand-written test finds: the
      local part has no `@`, so the split's `@` is the first one. */
  lemma IsEmailAt(s: string, i: int, j: int)
    requires 0 < i && i + 1 < j < |s| - 1 && s[i] == '@' && s[j] == '.'
    requires EmailRun(s[..i]) && EmailRun(s[i + 1..j]) && EmailRun(s[j + 1..])
    ensures IsEmail(s)
  {
    forall k | 0 <= k < i
      ensures s[k] != '@'
    {
      assert s[k] == s[..i][k];
    }
    FirstIndexOfAt(s, '@', i);
    var domain := s[i + 1..];
    assert domain == s[i + 1..j] + "." + s[j + 1..];
    EmailRunJoin(s[i + 1..j], s[j + 1..]);
    assert s[i + 2..|s| - 1][j - i - 2] == '.';
  }

  /** Everything in the pattern's language passes the hand-written test. */
  lemma IsEmailComplete(s: string)
    requires MatchesEmailPattern(s)
    ensures IsEmail(s)
  {
    var i, j :|
      0 < i && i + 1 < j < |s| - 1 && s[i] == '@' && s[j] == '.' &&
      EmailRun(s[..i]) && EmailRun(s[i + 1..j]) && EmailRun(s[j + 1..]);
    IsEmailAt(s, i, j);
  }

  /** The hand-written test decides exactly the regular expression's language. */
  lemma IsEmailMatchesPattern(s: string)
    ensures IsEmail(s) <==> MatchesEmailPattern(s)
  {
    if IsEmail(s) {
      IsEmailSound(s);
    }
    if MatchesEmailPattern(s) {
      IsEmailComplete(s);
    }
  }

  /** Only strings can pass the email test: `String()` of any other value has no `@`. */
  lemma OnlyStringsAreEmails(v: Value)
    requires !v.Str?
    ensures !MatchesEmailPattern(ToStr(v))
  {
    var t := ToStr(v);
    if v.Num? {
      var digits := NatDecimal(if v.n < 0 then -v.n else v.n);
      NatDecimalDigits(if v.n < 0 then -v.n else v.n);
      assert forall c :: c in digits ==> IsDigit(c);
      assert t == digits || t == "-" + digits;
      assert '@' !in t;
    } else {
      assert forall k :: 0 <= k < |t| ==> t[k] != '@';
    }
  }
}
