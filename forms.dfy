/**
  What the three settings and sign-in forms share: the e-mail test
  `/\S+@\S+\.\S+/`, the phone test `/^\+?[\d\s\-\(\)]+$/`, and the way an
  input change clears the error shown for that input. Each regular
  expression is given twice: as the match the expression describes, and as
  the direct test the forms can evaluate, proved to agree.
*/
module FormRules {
  import opened Js

  /** `s[i..j]` is a non-empty run of characters that `\S` matches. */
  ghost predicate NonSpaceRun(s: string, i: int, j: int)
  {
    0 <= i < j <= |s| && forall k | i <= k < j :: !IsSpace(s[k])
  }

  /** `s[a..e]` matches `\S+@\S+\.\S+` with the '@' at `at` and the '.' at `dot`. */
  ghost predicate EmailShape(s: string, a: int, at: int, dot: int, e: int)
  {
    NonSpaceRun(s, a, at) && at < |s| && s[at] == '@' &&
    NonSpaceRun(s, at + 1, dot) && dot < |s| && s[dot] == '.' &&
    NonSpaceRun(s, dot + 1, e)
  }

  /** `/\S+@\S+\.\S+/.test(s)`: the expression is not anchored, so any
      substring may match. */
  ghost predicate EmailPatternMatches(s: string)
  {
    exists a, at, dot, e :: EmailShape(s, a, at, dot, e)
  }

  /** The test evaluated directly: an '@' and a later '.', a non-space
      character just before the '@' and just after the '.', and no space
      between them. */
  function LooksLikeEmail(s: string): (b: bool)
    ensures b <==> EmailPatternMatches(s)
  {
    EmailTestAgrees(s);
    exists at, dot | 0 < at < |s| && 0 < dot < |s| :: EmailAt(s, at, dot)
  }

  /** An '@' at `at` and a '.' at `dot` with non-space characters just
      before the '@', just after the '.', and everywhere between them. */
  predicate EmailAt(s: string, at: int, dot: int)
  {
    0 < at && at + 1 < dot && dot + 1 < |s| &&
    s[at] == '@' && s[dot] == '.' && !IsSpace(s[at - 1]) && !IsSpace(s[dot + 1]) &&
    forall k | at < k < dot :: !IsSpace(s[k])
  }

  lemma EmailTestAgrees(s: string)
    ensures (exists at, dot | 0 < at < |s| && 0 < dot < |s| :: EmailAt(s, at, dot)) <==> EmailPatternMatches(s)
  {
    if exists at, dot | 0 < at < |s| && 0 < dot < |s| :: EmailAt(s, at, dot) {
      var at, dot :| 0 < at < |s| && 0 < dot < |s| && EmailAt(s, at, dot);
      assert EmailShape(s, at - 1, at, dot, dot + 2);
    }
    if EmailPatternMatches(s) {
      var a, at, dot, e :| EmailShape(s, a, at, dot, e);
      assert EmailAt(s, at, dot);
    }
  }

  /** White space alone never looks like an address. */
  lemma BlankIsNoEmail(s: string)
    requires AllSpace(s)
    ensures !EmailPatternMatches(s)
  {
  }

  /** `[\d\s\-\(\)]`: an ASCII digit, white space, a hyphen or a parenthesis. */
  predicate PhoneChar(c: char)
  {
    '0' <= c <= '9' || IsSpace(c) || c == '-' || c == '(' || c == ')'
  }

  /** `^\+?[\d\s\-\(\)]+$` with `p` characters taken by the optional '+'. */
  ghost predicate PhoneShape(s: string, p: int)
  {
    0 <= p <= 1 && p < |s| && (p == 1 ==> s[0] == '+') &&
    forall k | p <= k < |s| :: PhoneChar(s[k])
  }

  /** `/^\+?[\d\s\-\(\)]+$/.test(s)` */
  ghost predicate PhonePatternMatches(s: string)
  {
    exists p :: PhoneShape(s, p)
  }

  /** The test evaluated directly: drop one leading '+', then at least one
      character, all of them phone characters. */
  function LooksLikePhone(s: string): (b: bool)
    ensures b <==> PhonePatternMatches(s)
  {
    PhoneTestAgrees(s);
    |PhoneBody(s)| > 0 && forall k | 0 <= k < |PhoneBody(s)| :: PhoneChar(PhoneBody(s)[k])
  }

  /** What follows the optional leading '+'. */
  function PhoneBody(s: string): string
  {
    if |s| > 0 && s[0] == '+' then s[1..] else s
  }

  lemma PhoneTestAgrees(s: string)
    ensures (|PhoneBody(s)| > 0 && forall k | 0 <= k < |PhoneBody(s)| :: PhoneChar(PhoneBody(s)[k]))
      <==> PhonePatternMatches(s)
  {
    var body := PhoneBody(s);
    var p := |s| - |body|;
    if |body| > 0 && forall k | 0 <= k < |body| :: PhoneChar(body[k]) {
      assert PhoneShape(s, p) by {
        forall k | p <= k < |s| ensures PhoneChar(s[k]) {
          assert s[k] == body[k - p];
        }
      }
    }
    if PhonePatternMatches(s) {
      var q :| PhoneShape(s, q);
      if q == 0 {
        assert PhoneChar(s[0]);
      }
      forall k | 0 <= k < |body| ensures PhoneChar(body[k]) {
        assert body[k] == s[k + p];
      }
    }
  }

  /** `fields[name]`, read as '' when the field is missing. */
  function Field(fields: map<string, string>, name: string): string
  {
    if name in fields then fields[name] else ""
  }

  /** `if (errors[name]) setErrors({...errors, [name]: ''})`: a shown error
      of the edited input becomes '' (the key stays); nothing else changes. */
  function ClearFieldError(errors: map<string, string>, name: string): (r: map<string, string>)
    ensures r.Keys == errors.Keys
    ensures forall k | k in errors && k != name :: r[k] == errors[k]
    ensures name in r ==> r[name] == ""
  {
    if name in errors && errors[name] != "" then errors[name := ""] else errors
  }
}
