/** The login screen's client-side checks: the e-mail pattern, form validity and when the
    submit button is disabled. */
module LoginPage {
  import opened Maybe
  import opened Text

  /** The first index of `c` in `s`. */
  function IndexOf(s: string, c: char): (r: Option<nat>)
    ensures r.None? <==> c !in s
    ensures r.Some? ==> r.value < |s| && s[r.value] == c && c !in s[..r.value]
  {
    if s == [] then None
    else if s[0] == c then Some(0)
    else
      var rest := IndexOf(s[1..], c);
      if rest.None? then None
      else
        assert s[..rest.value + 1] == [s[0]] + s[1..][..rest.value];
        Some(rest.value + 1)
  }

  /** `d` matches `[^\s@]+\.[^\s@]+` once its characters are known to match `[^\s@]`: some
      `.` has at least one character on each side. */
  predicate DotInside(d: string) {
    |d| >= 3 && '.' in d[1..|d| - 1]
  }

  /** `/^[^\s@]+@[^\s@]+\.[^\s@]+$/.test(email)`, decided from the first `@`. */
  predicate ValidateEmail(email: string) {
    var at := IndexOf(email, '@');
    at.Some? && at.value >= 1
    && NoSpaceNoAt(email[..at.value]) && NoSpaceNoAt(email[at.value + 1..])
    && DotInside(email[at.value + 1..])
  }

  /** The pattern read directly: `email` is `L@X.Y` with `@` at `a`, the `.` at `j`, and
      `L`, `X` and `Y` non-empty runs of characters other than whitespace and `@`. */
  predicate EmailAt(email: string, a: int, j: int) {
    1 <= a && a + 1 < j < |email| - 1 && email[a] == '@' && email[j] == '.'
    && NoSpaceNoAt(email[..a]) && NoSpaceNoAt(email[a + 1..j]) && NoSpaceNoAt(email[j + 1..])
  }

  /** Whatever `ValidateEmail` accepts has the shape the pattern describes. */
  lemma ValidateEmailSound(email: string)
    requires ValidateEmail(email)
    ensures exists a, j :: EmailAt(email, a, j)
  {
    var a := IndexOf(email, '@').value;
    var d := email[a + 1..];
    var k :| 0 <= k < |d[1..|d| - 1]| && d[1..|d| - 1][k] == '.';
    var j := a + 2 + k;
    assert email[j] == '.';
    assert email[a + 1..j] == d[..k + 1];
    assert email[j + 1..] == d[k + 2..];
    assert EmailAt(email, a, j);
  }

  /** Everything of that shape is accepted. */
  lemma ValidateEmailComplete(email: string, a: int, j: int)
    requires EmailAt(email, a, j)
    ensures ValidateEmail(email)
  {
    assert '@' !in email[..a];
    var at := IndexOf(email, '@');
    assert at.Some? by { assert email[a] == '@'; }
    var d := email[a + 1..];
    assert d == email[a + 1..j] + email[j..];
    assert NoSpaceNoAt(d);
    assert d[1..|d| - 1][j - a - 2] == '.';
  }

  /** An accepted address holds exactly one `@` and no whitespace. */
  lemma AcceptedHasOneAt(email: string)
    requires ValidateEmail(email)
    ensures multiset(email)['@'] == 1
    ensures forall i :: 0 <= i < |email| ==> !IsSpace(email[i])
  {
    var a := IndexOf(email, '@').value;
    assert email == email[..a] + [email[a]] + email[a + 1..];
    assert '@' !in email[a + 1..];
    forall i | 0 <= i < |email| ensures !IsSpace(email[i]) {
      if i < a {
        assert email[i] == email[..a][i];
      } else if i > a {
        assert email[i] == email[a + 1..][i - a - 1];
      }
    }
  }

  /** `validateEmail(email) && password.length > 0` */
  predicate IsFormValid(email: string, password: string) {
    ValidateEmail(email) && |password| > 0
  }

  /** `!isFormValid || loading` */
  predicate SubmitDisabled(email: string, password: string, loading: bool) {
    !IsFormValid(email, password) || loading
  }

  /** The button submits only a well-formed address with a password, and never while a
      login is running. */
  lemma EnabledSubmitIsWellFormed(email: string, password: string, loading: bool)
    requires !SubmitDisabled(email, password, loading)
    ensures !loading && password != ""
    ensures exists a, j :: EmailAt(email, a, j)
    ensures multiset(email)['@'] == 1
  {
    ValidateEmailSound(email);
    AcceptedHasOneAt(email);
  }

  /** An address without `@`, or with a space, keeps the button disabled. */
  lemma MalformedDisables(email: string, password: string, loading: bool)
    requires '@' !in email || ' ' in email
    ensures SubmitDisabled(email, password, loading)
  {
    if ValidateEmail(email) {
      AcceptedHasOneAt(email);
    }
  }
}
