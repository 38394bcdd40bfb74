/** The sign-up screen: the validation schema of the form and the payload `onSubmit`
    posts, whose address is the typed address cut at its commas. */
module Signup {
  import opened Text

  datatype SignupForm = SignupForm(
    username: string,
    email: string,
    password: string,
    confirmPassword: string,
    address: string,
    phone: string,
    userType: string,
    profile: string
  )

  /** The body of the registration request: the form with the address as a list. */
  datatype RegistrationData = RegistrationData(
    username: string,
    email: string,
    password: string,
    confirmPassword: string,
    address: seq<string>,
    phone: string,
    userType: string,
    profile: string
  )

  const MinPasswordLength := 6
  const SpecialCharacters := "@$!%*?&#"
  const UserTypes := ["Admin", "Driver", "Supermarket", "Client", "Picker"]

  predicate IsUpper(c: char) { 'A' <= c <= 'Z' }
  predicate IsLower(c: char) { 'a' <= c <= 'z' }
  predicate IsDigit(c: char) { '0' <= c <= '9' }

  /** `.required()` on a string: present and not empty. */
  predicate Required(s: string) {
    s != ""
  }

  /** The password rules: at least six characters, among them an upper-case letter, a
      lower-case letter, a digit and one of `@$!%*?&#`. */
  predicate PasswordAccepted(p: string) {
    |p| >= MinPasswordLength
    && (exists i :: 0 <= i < |p| && IsUpper(p[i]))
    && (exists i :: 0 <= i < |p| && IsLower(p[i]))
    && (exists i :: 0 <= i < |p| && IsDigit(p[i]))
    && (exists i :: 0 <= i < |p| && p[i] in SpecialCharacters)
  }

  /** `oneOf([ref('password')])` and `.required()` */
  predicate ConfirmAccepted(password: string, confirm: string) {
    confirm == password && Required(confirm)
  }

  predicate UserTypeAccepted(t: string) {
    t in UserTypes
  }

  /** The schema, except Yup's own e-mail format test. */
  predicate FormAccepted(f: SignupForm) {
    Required(f.username) && Required(f.email) && PasswordAccepted(f.password)
    && ConfirmAccepted(f.password, f.confirmPassword) && Required(f.address)
    && Required(f.phone) && UserTypeAccepted(f.userType) && Required(f.profile)
  }

  /** The character classes the password's `matches` tests look for. */
  datatype CharClass = Upper | Lower | Digit | Special

  predicate InClass(c: char, k: CharClass) {
    match k
    case Upper => IsUpper(c)
    case Lower => IsLower(c)
    case Digit => IsDigit(c)
    case Special => c in SpecialCharacters
  }

  /** `/[…]/.test(s)`: a left-to-right search for one character of the class. */
  function Matches(s: string, k: CharClass): bool
    decreases |s|
  {
    s != [] && (InClass(s[0], k) || Matches(s[1..], k))
  }

  /** The search finds a character of the class exactly when one occurs at some index. */
  lemma {:induction false} MatchesIff(s: string, k: CharClass)
    ensures Matches(s, k) <==> exists i :: 0 <= i < |s| && InClass(s[i], k)
    decreases |s|
  {
    if s != [] {
      MatchesIff(s[1..], k);
      if exists i :: 0 <= i < |s[1..]| && InClass(s[1..][i], k) {
        var i :| 0 <= i < |s[1..]| && InClass(s[1..][i], k);
        assert InClass(s[i + 1], k);
      }
      if exists i :: 0 <= i < |s| && InClass(s[i], k) {
        var i :| 0 <= i < |s| && InClass(s[i], k);
        if i > 0 {
          assert InClass(s[1..][i - 1], k);
        }
      }
    }
  }

  const UsernameRequired := "Username is required"
  const EmailRequired := "Email is required"
  const PasswordTooShort := "Password must be at least 6 characters"
  const NeedsUppercase := "Password must contain at least one uppercase letter"
  const NeedsLowercase := "Password must contain at least one lowercase letter"
  const NeedsNumber := "Password must contain at least one number"
  const NeedsSpecial := "Password must contain at least one special character"
  const PasswordRequired := "Password is required"
  const PasswordsMustMatch := "Passwords must match"
  const ConfirmRequired := "Confirm Password is required"
  const AddressRequired := "Address is required"
  const PhoneRequired := "Phone is required"
  const InvalidUserType := "Invalid user type"
  const ProfileRequired := "Profile is required"

  /** The messages of the password tests that fail, each test run on its own. */
  function PasswordErrors(p: string): (errs: set<string>)
    ensures PasswordTooShort in errs <==> |p| < MinPasswordLength
    ensures NeedsUppercase in errs <==> !Matches(p, Upper)
    ensures NeedsLowercase in errs <==> !Matches(p, Lower)
    ensures NeedsNumber in errs <==> !Matches(p, Digit)
    ensures NeedsSpecial in errs <==> !Matches(p, Special)
    ensures PasswordRequired in errs <==> p == ""
  {
    (if |p| < MinPasswordLength then {PasswordTooShort} else {})
    + (if Matches(p, Upper) then {} else {NeedsUppercase})
    + (if Matches(p, Lower) then {} else {NeedsLowercase})
    + (if Matches(p, Digit) then {} else {NeedsNumber})
    + (if Matches(p, Special) then {} else {NeedsSpecial})
    + (if p == "" then {PasswordRequired} else {})
  }

  /** Every message the schema reports for the form, all tests run (the e-mail format test
      aside): one set per field, as the schema lists them. The user type's `required` is on a
      `mixed` schema, which rejects only `undefined` and `null`; the select always gives a
      string, so only `oneOf` can report for it. */
  function SchemaErrors(f: SignupForm): set<string> {
    (if f.username == "" then {UsernameRequired} else {})
    + (if f.email == "" then {EmailRequired} else {})
    + PasswordErrors(f.password)
    + (if f.confirmPassword != f.password then {PasswordsMustMatch} else {})
    + (if f.confirmPassword == "" then {ConfirmRequired} else {})
    + (if f.address == "" then {AddressRequired} else {})
    + (if f.phone == "" then {PhoneRequired} else {})
    + (if f.userType in UserTypes then {} else {InvalidUserType})
    + (if f.profile == "" then {ProfileRequired} else {})
  }

  /** The password rules hold exactly when none of the password's tests reports. */
  lemma PasswordAcceptedIffNoErrors(p: string)
    ensures PasswordAccepted(p) <==> PasswordErrors(p) == {}
  {
    MatchesIff(p, Upper);
    MatchesIff(p, Lower);
    MatchesIff(p, Digit);
    MatchesIff(p, Special);
    assert (forall i :: 0 <= i < |p| ==> (IsUpper(p[i]) <==> InClass(p[i], Upper)));
    assert (forall i :: 0 <= i < |p| ==> (IsLower(p[i]) <==> InClass(p[i], Lower)));
    assert (forall i :: 0 <= i < |p| ==> (IsDigit(p[i]) <==> InClass(p[i], Digit)));
    assert (forall i :: 0 <= i < |p| ==> (p[i] in SpecialCharacters <==> InClass(p[i], Special)));
    if PasswordErrors(p) == {} {
      assert PasswordTooShort !in PasswordErrors(p);
      assert NeedsUppercase !in PasswordErrors(p);
      assert NeedsLowercase !in PasswordErrors(p);
      assert NeedsNumber !in PasswordErrors(p);
      assert NeedsSpecial !in PasswordErrors(p);
    }
  }

  /** The form is accepted exactly when the schema reports no message. */
  lemma FormAcceptedIffNoErrors(f: SignupForm)
    ensures FormAccepted(f) <==> SchemaErrors(f) == {}
  {
    PasswordAcceptedIffNoErrors(f.password);
  }

  /** A password that passes also meets the confirmation's own `required`. */
  lemma AcceptedFormHasConfirmedPassword(f: SignupForm)
    requires FormAccepted(f)
    ensures |f.confirmPassword| >= MinPasswordLength
    ensures exists i :: 0 <= i < |f.confirmPassword| && f.confirmPassword[i] in SpecialCharacters
  {
  }

  /** A password made only of letters and digits is refused, whatever its length. */
  lemma NoSpecialCharacterRefused(p: string)
    requires forall i :: 0 <= i < |p| ==> IsUpper(p[i]) || IsLower(p[i]) || IsDigit(p[i])
    ensures !PasswordAccepted(p)
  {
  }

  /** `data.address.split(',').map(addr => addr.trim())` */
  function SplitAddress(address: string): (parts: seq<string>)
    ensures |parts| == multiset(address)[','] + 1
    ensures forall k :: 0 <= k < |parts| ==> ',' !in parts[k] && IsTrimmed(parts[k])
  {
    SplitCount(address, ',');
    SplitPiecesLackSeparator(address, ',');
    var pieces := Split(address, ',');
    var parts := TrimAll(pieces);
    forall k | 0 <= k < |parts| ensures ',' !in parts[k] && IsTrimmed(parts[k]) {
      TrimInside(pieces[k]);
    }
    parts
  }

  /** Trimming keeps a piece free of commas. */
  lemma TrimInside(s: string)
    requires ',' !in s
    ensures ',' !in Trim(s) && IsTrimmed(Trim(s))
  {
    var i, j :| TrimmedAt(s, Trim(s), i, j);
    assert forall k :: 0 <= k < |Trim(s)| ==> Trim(s)[k] == s[i + k];
  }

  /** `{ ...data, address: addressArray }` */
  function RegistrationPayload(f: SignupForm): (r: RegistrationData)
    ensures r.address == SplitAddress(f.address)
    ensures r.username == f.username && r.email == f.email && r.password == f.password
    ensures r.confirmPassword == f.confirmPassword && r.phone == f.phone
    ensures r.userType == f.userType && r.profile == f.profile
  {
    RegistrationData(f.username, f.email, f.password, f.confirmPassword,
                     SplitAddress(f.address), f.phone, f.userType, f.profile)
  }

  /** An address written as trimmed, comma-free parts joined with `", "` is posted as
      exactly those parts. */
  lemma PayloadRecoversJoinedAddress(f: SignupForm, parts: seq<string>)
    requires |parts| >= 1
    requires forall k :: 0 <= k < |parts| ==> ',' !in parts[k] && IsTrimmed(parts[k])
    requires f.address == Join(parts, ", ")
    ensures RegistrationPayload(f).address == parts
  {
    SplitTrimUndoesJoin(parts);
  }

  /** An address without commas is posted as one trimmed part. */
  lemma SinglePartAddress(f: SignupForm)
    requires ',' !in f.address
    ensures RegistrationPayload(f).address == [Trim(f.address)]
  {
    SplitWithoutSeparator(f.address, ',');
  }
}
