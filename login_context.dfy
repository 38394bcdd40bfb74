/** The session store: who is logged in, the operations that change the user, and the
    check of the `token` cookie when the application mounts. */
module LoginContext {
  import opened Maybe
  import opened Seqs
  import opened Text
  import opened Http

  /** An address as the server stores it: absent, one line, or a list of parts. */
  datatype Address = NoAddress | Line(line: string) | Parts(parts: seq<string>)

  /** A user as the server's JSON returns it. Every property is optional, because nothing
      checks the reply against the declared interface and the screens guard each read with
      `|| ''` or `?.`; `token` is the property a login reply carries besides the user's own. */
  datatype User = User(
    id: Option<string>,
    username: Option<string>,
    email: Option<string>,
    profile: Option<string>,
    address: Address,
    phone: Option<string>,
    supermarketId: Option<string>,
    userType: Option<string>,
    profilePicture: Option<string>,
    token: Option<string>
  )

  /** What a store reads from the session and from the supermarket selection: the user, the
      authentication flag, and the selected supermarket's id. */
  datatype Scope = Scope(user: Option<User>, isAuthenticated: bool, supermarketId: Option<string>)

  /** `user?._id` as it lands in a URL. */
  function UserPathId(user: Option<User>): (r: PathId)
    ensures r.Some? <==> user.Some? && user.value.id.Some?
  {
    if user.Some? then user.value.id else None
  }

  /** The `supermarketId` the session exposes: `user?.supermarketId || null`. */
  function DerivedSupermarketId(user: Option<User>): (r: Option<string>)
    ensures r.Some? <==> user.Some? && Truthy(user.value.supermarketId)
    ensures r.Some? ==> r.value == user.value.supermarketId.value && r.value != ""
  {
    if user.Some? && Truthy(user.value.supermarketId) then user.value.supermarketId else None
  }

  /** Why `login` threw. */
  datatype LoginError = LoginFailed | NoToken | RequestFailed

  datatype PasswordResult = PasswordResult(success: bool, message: string)

  const PasswordUpdated := "Password updated successfully"
  const PasswordRejected := "Failed to update password"
  const PasswordRequestFailed := "An error occurred while updating the password"

  /** What `updatePassword` resolves to for the reply it got; it never rejects. */
  function PasswordOutcome(reply: Reply<Option<string>>): (r: PasswordResult)
    ensures r.success <==> reply.Ok?
    ensures reply.Ok? ==> r.message == PasswordUpdated
    ensures reply.HttpError? ==> r.message == PasswordRejected
    ensures (reply.NetworkError? || reply.OtherError?) ==> r.message == PasswordRequestFailed
  {
    match reply
    case Ok(_) => PasswordResult(true, PasswordUpdated)
    case HttpError(_) => PasswordResult(false, PasswordRejected)
    case NetworkError => PasswordResult(false, PasswordRequestFailed)
    case OtherError => PasswordResult(false, PasswordRequestFailed)
  }

  predicate IsTokenSegment(segment: string) {
    StartsWith(Trim(segment), "token=")
  }

  /** `document.cookie.split(';').find(c => c.trim().startsWith('token='))`: the first
      segment, untrimmed, that holds the token. */
  function TokenSegment(cookie: string): Option<string> {
    Find(Split(cookie, ';'), IsTokenSegment)
  }

  /** A token segment holds an `=`, so `split('=')` gives at least two pieces. */
  lemma TokenSegmentHasValue(segment: string)
    requires IsTokenSegment(segment)
    ensures |Split(segment, '=')| >= 2
  {
    var r := Trim(segment);
    var i, j :| TrimmedAt(segment, r, i, j);
    assert r[5] == '=' && segment[i + 5] == r[5];
    assert '=' in segment;
    SplitCount(segment, '=');
  }

  /** `token.split('=')[1]`: the bearer the mount check sends. */
  function Bearer(segment: string): string
    requires IsTokenSegment(segment)
  {
    TokenSegmentHasValue(segment);
    Split(segment, '=')[1]
  }

  /** The bearer of `lead + "token=" + value` is `value` up to its first `=`: a token that
      itself holds an `=` is cut short there. */
  lemma BearerOfCookie(lead: string, value: string)
    requires '=' !in lead && IsTokenSegment(lead + "token=" + value)
    ensures Bearer(lead + "token=" + value) == Split(value, '=')[0]
  {
    var a := lead + "token";
    assert lead + "token=" + value == a + ['='] + value;
    assert '=' !in a;
    SplitAfterPiece(a, value, '=');
  }

  class LoginProvider {
    var isAuthenticated: bool
    var user: Option<User>
    /** The requests sent so far, oldest first. */
    var sent: seq<Request>

    constructor ()
      ensures !isAuthenticated && user.None? && sent == []
    {
      isAuthenticated := false;
      user := None;
      sent := [];
    }

    /** The exposed `supermarketId`. */
    function SupermarketId(): (r: Option<string>)
      reads this
      ensures r.Some? <==> user.Some? && Truthy(user.value.supermarketId)
    {
      DerivedSupermarketId(user)
    }

    /** `login(email, password)`: on a 2xx reply whose body has a truthy `token` the session
        becomes authenticated with the body as its user; otherwise it throws and nothing
        changes. */
    method Login(email: string, password: string, reply: Reply<User>) returns (thrown: Option<LoginError>)
      modifies this
      ensures sent == old(sent) + [PostLogin(email, password)]
      ensures thrown.None? <==> reply.Ok? && Truthy(reply.data.token)
      ensures thrown.None? ==> isAuthenticated && user == Some(reply.data)
      ensures thrown.Some? ==> isAuthenticated == old(isAuthenticated) && user == old(user)
      ensures reply.HttpError? ==> thrown == Some(LoginFailed)
      ensures reply.Ok? && !Truthy(reply.data.token) ==> thrown == Some(NoToken)
    {
      sent := sent + [PostLogin(email, password)];
      match reply {
        case Ok(body) =>
          if Truthy(body.token) {
            isAuthenticated := true;
            user := Some(body);
            thrown := None;
          } else {
            thrown := Some(NoToken);
          }
        case HttpError(_) =>
          thrown := Some(LoginFailed);
        case NetworkError =>
          thrown := Some(RequestFailed);
        case OtherError =>
          thrown := Some(RequestFailed);
      }
    }

    /** `updateUser(data)`: without a user id nothing is sent; a 2xx reply replaces the user
        with the reply's `user` property (which may be missing); a failure is logged and
        swallowed. `isAuthenticated` is never touched. */
    method UpdateUser(data: FormData, reply: Reply<Option<User>>)
      modifies this
      ensures isAuthenticated == old(isAuthenticated)
      ensures old(user).None? || !Truthy(old(user).value.id) ==> sent == old(sent) && user == old(user)
      ensures old(user).Some? && Truthy(old(user).value.id) ==>
        sent == old(sent) + [PatchUser(old(user).value.id.value, data.entries)]
        && user == (if reply.Ok? then reply.data else old(user))
    {
      if user.None? || !Truthy(user.value.id) {
        return;
      }
      sent := sent + [PatchUser(user.value.id.value, data.entries)];
      if reply.Ok? {
        user := reply.data;
      }
    }

    /** `updatePassword(currentPassword, newPassword)`: always sends, never throws. */
    method UpdatePassword(currentPassword: string, newPassword: string, reply: Reply<Option<string>>)
      returns (result: PasswordResult)
      modifies this
      ensures sent == old(sent) + [PatchPassword(UserPathId(old(user)), currentPassword, newPassword)]
      ensures user == old(user) && isAuthenticated == old(isAuthenticated)
      ensures result == PasswordOutcome(reply)
    {
      sent := sent + [PatchPassword(UserPathId(user), currentPassword, newPassword)];
      result := PasswordOutcome(reply);
    }

    /** `updateProfilePicture(picture)`: as `updateUser`, with a form holding only the
        picture under `profilePicture`. */
    method UpdateProfilePicture(picture: File, reply: Reply<Option<User>>)
      modifies this
      ensures isAuthenticated == old(isAuthenticated)
      ensures old(user).None? || !Truthy(old(user).value.id) ==> sent == old(sent) && user == old(user)
      ensures old(user).Some? && Truthy(old(user).value.id) ==>
        sent == old(sent) + [PatchUser(old(user).value.id.value, [Entry("profilePicture", Blob(picture))])]
        && user == (if reply.Ok? then reply.data else old(user))
    {
      if user.None? || !Truthy(user.value.id) {
        return;
      }
      var form := new FormData();
      form.Append("profilePicture", Blob(picture));
      assert form.entries == [Entry("profilePicture", Blob(picture))];
      sent := sent + [PatchUser(user.value.id.value, form.entries)];
      if reply.Ok? {
        user := reply.data;
      }
    }

    /** The mount effect and `checkAuth`: without a token segment in the cookie the session
        is logged out and nothing is sent; otherwise the user is fetched (with the id of the
        user held at mount, and the segment's value as bearer) and a 2xx reply logs in with
        the body, anything else logs out. */
    method MountCheck(cookie: string, reply: Reply<User>)
      modifies this
      ensures TokenSegment(cookie).None? ==> !isAuthenticated && user.None? && sent == old(sent)
      ensures TokenSegment(cookie).Some? ==>
        sent == old(sent) + [GetUser(UserPathId(old(user)), Bearer(TokenSegment(cookie).value))]
        && isAuthenticated == reply.Ok?
        && user == (if reply.Ok? then Some(reply.data) else None)
    {
      var token := TokenSegment(cookie);
      if token.None? {
        isAuthenticated := false;
        user := None;
        return;
      }
      sent := sent + [GetUser(UserPathId(user), Bearer(token.value))];
      if reply.Ok? {
        isAuthenticated := true;
        user := Some(reply.data);
      } else {
        isAuthenticated := false;
        user := None;
      }
    }
  }
}
