/** The profile screen: the editable form filled from the signed-in user, the per-field
    edits, the address suggestions and the submit through the session. */
module ProfileClient {
  import opened Maybe
  import opened Text
  import opened Http
  import opened LoginContext
  import Signup

  datatype ProfileForm = ProfileForm(
    username: string,
    email: string,
    profilePicture: string,
    address: string,
    phone: string,
    profile: string,
    id: string
  )

  const EmptyForm := ProfileForm("", "", "", "", "", "", "")

  /** The form's keys in the order the object literal declares them. */
  const FormKeys := ["username", "email", "profilePicture", "address", "phone", "profile", "id"]

  const RequiredMessage := "Username and email are required"

  /** `value || ''` */
  function OrEmpty(o: Option<string>): (s: string)
    ensures o.Some? ==> s == o.value
    ensures o.None? ==> s == ""
  {
    if o.Some? then o.value else ""
  }

  /** `Array.isArray(address) ? address.join(', ') : address || ''` */
  function AddressText(a: Address): (s: string)
    ensures a.Parts? ==> s == Join(a.parts, ", ")
    ensures a.Line? ==> s == a.line
    ensures a.NoAddress? ==> s == ""
  {
    match a
    case NoAddress => ""
    case Line(l) => l
    case Parts(ps) => Join(ps, ", ")
  }

  /** The form the `[user]` effect sets. */
  function InitForm(u: User): (f: ProfileForm)
    ensures f.username == OrEmpty(u.username) && f.email == OrEmpty(u.email)
    ensures f.profilePicture == OrEmpty(u.profilePicture) && f.address == AddressText(u.address)
    ensures f.phone == OrEmpty(u.phone) && f.profile == OrEmpty(u.profile) && f.id == OrEmpty(u.id)
  {
    ProfileForm(OrEmpty(u.username), OrEmpty(u.email), OrEmpty(u.profilePicture),
                AddressText(u.address), OrEmpty(u.phone), OrEmpty(u.profile), OrEmpty(u.id))
  }

  /** `formData[key]` for a key of the form. */
  function Field(f: ProfileForm, key: string): (r: Option<string>)
    ensures r.Some? <==> key in FormKeys
  {
    if key == "username" then Some(f.username)
    else if key == "email" then Some(f.email)
    else if key == "profilePicture" then Some(f.profilePicture)
    else if key == "address" then Some(f.address)
    else if key == "phone" then Some(f.phone)
    else if key == "profile" then Some(f.profile)
    else if key == "id" then Some(f.id)
    else None
  }

  /** `{ ...f, [key]: value }` for a key of the form. */
  function WithField(f: ProfileForm, key: string, value: string): (g: ProfileForm)
    requires key in FormKeys
    ensures Field(g, key) == Some(value)
    ensures forall k :: k != key ==> Field(g, k) == Field(f, k)
  {
    if key == "username" then f.(username := value)
    else if key == "email" then f.(email := value)
    else if key == "profilePicture" then f.(profilePicture := value)
    else if key == "address" then f.(address := value)
    else if key == "phone" then f.(phone := value)
    else if key == "profile" then f.(profile := value)
    else f.(id := value)
  }

  /** `Object.entries(formData)` as `FormData` entries. */
  function FormEntries(f: ProfileForm): (es: seq<Entry>)
    ensures |es| == |FormKeys|
    ensures forall i :: 0 <= i < |es| ==> es[i] == Entry(FormKeys[i], TextValue(Plain(Field(f, FormKeys[i]).value)))
    ensures forall i, j :: 0 <= i < j < |es| ==> es[i].key != es[j].key
  {
    [Entry("username", TextValue(Plain(f.username))),
     Entry("email", TextValue(Plain(f.email))),
     Entry("profilePicture", TextValue(Plain(f.profilePicture))),
     Entry("address", TextValue(Plain(f.address))),
     Entry("phone", TextValue(Plain(f.phone))),
     Entry("profile", TextValue(Plain(f.profile))),
     Entry("id", TextValue(Plain(f.id)))]
  }

  /** The joined address a user's parts become, cut again by the sign-up split, gives back
      the parts when none holds a comma or surrounding whitespace. */
  lemma AddressRoundTrip(u: User)
    requires u.address.Parts? && |u.address.parts| >= 1
    requires forall k :: 0 <= k < |u.address.parts| ==> ',' !in u.address.parts[k] && IsTrimmed(u.address.parts[k])
    ensures Signup.SplitAddress(InitForm(u).address) == u.address.parts
  {
    SplitTrimUndoesJoin(u.address.parts);
  }

  class Profile {
    var form: ProfileForm
    var file: Option<File>
    var isEditing: bool
    var loading: bool
    var error: string
    var manualAddress: string
    var suggestions: seq<string>

    constructor ()
      ensures form == EmptyForm && file.None? && !isEditing && !loading && error == ""
      ensures manualAddress == "" && suggestions == []
    {
      form := EmptyForm;
      file := None;
      isEditing := false;
      loading := false;
      error := "";
      manualAddress := "";
      suggestions := [];
    }

    /** The `[user]` effect: a signed-in user refills the whole form; no user leaves it. */
    method OnUserChange(user: Option<User>)
      modifies this
      ensures form == if user.Some? then InitForm(user.value) else old(form)
      ensures file == old(file) && isEditing == old(isEditing) && loading == old(loading)
      ensures error == old(error) && manualAddress == old(manualAddress) && suggestions == old(suggestions)
    {
      if user.Some? {
        form := InitForm(user.value);
      }
    }

    /** `handleChange(e)`: a form key gets the new value and every other field stays; any
        other name leaves the form alone. An `address` change also becomes the text the
        suggestions are looked up for. */
    method HandleChange(name: string, value: string)
      modifies this
      ensures name in FormKeys ==> form == WithField(old(form), name, value)
      ensures name !in FormKeys ==> form == old(form)
      ensures forall k :: k != name ==> Field(form, k) == Field(old(form), k)
      ensures manualAddress == if name == "address" then value else old(manualAddress)
      ensures file == old(file) && isEditing == old(isEditing) && loading == old(loading)
      ensures error == old(error) && suggestions == old(suggestions)
    {
      if name in FormKeys {
        form := WithField(form, name, value);
      }
      if name == "address" {
        manualAddress := value;
      }
    }

    /** `handleSuggestionClick(suggestion)` */
    method HandleSuggestionClick(suggestion: string)
      modifies this
      ensures manualAddress == suggestion && form == old(form).(address := suggestion) && suggestions == []
      ensures file == old(file) && isEditing == old(isEditing) && loading == old(loading) && error == old(error)
    {
      manualAddress := suggestion;
      form := form.(address := suggestion);
      suggestions := [];
    }

    /** `handleFileChange(e)`: the chosen file is kept and, when there is one, sent through
        `updateProfilePicture`, which swallows its failures, so the error is never set. */
    method HandleFileChange(session: LoginProvider, selected: Option<File>, reply: Reply<Option<User>>)
      modifies this, session
      ensures file == selected && loading == (selected.None? && old(loading))
      ensures form == old(form) && isEditing == old(isEditing) && error == old(error)
      ensures manualAddress == old(manualAddress) && suggestions == old(suggestions)
      ensures session.isAuthenticated == old(session.isAuthenticated)
      ensures selected.None? ==> session.sent == old(session.sent) && session.user == old(session.user)
      ensures selected.Some? && old(session.user).Some? && Truthy(old(session.user).value.id) ==>
        session.sent == old(session.sent) + [PatchUser(old(session.user).value.id.value, [Entry("profilePicture", Blob(selected.value))])]
        && session.user == (if reply.Ok? then reply.data else old(session.user))
      ensures selected.Some? && (old(session.user).None? || !Truthy(old(session.user).value.id)) ==>
        session.sent == old(session.sent) && session.user == old(session.user)
    {
      file := selected;
      if selected.Some? {
        loading := true;
        session.UpdateProfilePicture(selected.value, reply);
        loading := false;
      }
    }

    /** `handleSubmit(e)`: the error is cleared; an empty e-mail or user name is refused
        before anything is sent; with a signed-in user every form field is appended, in
        order, and the form goes through `updateUser`. `updateUser` swallows its failures,
        so editing always ends and the catch branch never runs. */
    method HandleSubmit(session: LoginProvider, reply: Reply<Option<User>>)
      modifies this, session
      ensures form == old(form) && file == old(file)
      ensures manualAddress == old(manualAddress) && suggestions == old(suggestions)
      ensures session.isAuthenticated == old(session.isAuthenticated)
      ensures form.email == "" || form.username == "" ==>
        error == RequiredMessage && isEditing == old(isEditing) && loading == old(loading)
        && session.sent == old(session.sent) && session.user == old(session.user)
      ensures form.email != "" && form.username != "" && old(session.user).None? ==>
        error == "" && isEditing == old(isEditing) && loading == old(loading)
        && session.sent == old(session.sent) && session.user == old(session.user)
      ensures form.email != "" && form.username != "" && old(session.user).Some? ==>
        var u := old(session.user).value;
        error == "" && !isEditing && !loading
        && session.sent == old(session.sent) + (if Truthy(u.id) then [PatchUser(u.id.value, FormEntries(form))] else [])
        && session.user == (if Truthy(u.id) && reply.Ok? then reply.data else old(session.user))
    {
      error := "";
      if form.email == "" || form.username == "" {
        error := RequiredMessage;
        return;
      }
      if session.user.Some? {
        loading := true;
        var data := new FormData();
        data.AppendAll(FormEntries(form));
        assert data.entries == FormEntries(form);
        session.UpdateUser(data, reply);
        isEditing := false;
        loading := false;
      }
    }
  }
}
