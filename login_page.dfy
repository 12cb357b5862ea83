/** The login page (UI/src/pages/Login.tsx): where it sends the user
    back to, the name it derives from the email, the sign-in it performs
    on submit, and the redirect of a user who is already signed in. */
module LoginPage {
  import opened Results
  import opened JsText
  import opened AuthContext

  /** `location.state.from`, as far as the page looks at it: a string, or
      a value of another type. */
  datatype FromValue = FromString(path: string) | FromOther

  const DefaultTarget := "/mypage"
  const FakeToken := "FAKE_TOKEN"

  /** `getFrom(loc)`: a non-empty string `from`, otherwise "/mypage". */
  function GetFrom(from: Option<FromValue>): (target: string)
    ensures target != []
    ensures from.Some? && from.value.FromString? && from.value.path != [] ==> target == from.value.path
    ensures !(from.Some? && from.value.FromString? && from.value.path != []) ==> target == DefaultTarget
  {
    if from.Some? && from.value.FromString? && from.value.path != [] then from.value.path else DefaultTarget
  }

  /** `email.split("@")[0] || "사용자"`: the email's text before its
      first "@" (all of it without one) when that is not empty, and
      "사용자" otherwise. */
  function DeriveName(email: string): (name: string)
    ensures name != []
    ensures (email == [] || email[0] == '@') ==> name == "사용자"
    ensures email != [] && email[0] != '@' ==>
              (&& '@' !in name && |name| <= |email| && email[..|name|] == name
               && (|name| < |email| ==> email[|name|] == '@'))
    ensures '@' !in email && email != [] ==> name == email
  {
    var prefix := Before(email, '@');
    if prefix != [] then prefix else "사용자"
  }

  /** What the page shows: a redirect for a signed-in user, the form otherwise. */
  datatype View = Redirect(to: string) | Form

  function Show(isAuthed: bool, from: Option<FromValue>): (v: View)
    ensures isAuthed <==> v.Redirect?
    ensures v.Redirect? ==> v.to == GetFrom(from)
  {
    if isAuthed then Redirect(GetFrom(from)) else Form
  }

  /** `onSubmit`: signs in as user "u1" with the derived name and the
      email, with the fixed token, and returns where it navigates. */
  method Submit(auth: AuthProvider, from: Option<FromValue>, email: string) returns (target: string)
    modifies auth
    ensures auth.user == Some(User("u1", DeriveName(email), Some(email)))
    ensures auth.store == LoginStore(old(auth.store), User("u1", DeriveName(email), Some(email)), Some(FakeToken))
    ensures auth.store[TokenKey] == FakeToken
    ensures target == GetFrom(from)
  {
    auth.Login(User("u1", DeriveName(email), Some(email)), Some(FakeToken));
    target := GetFrom(from);
  }

  /** After a submit the page redirects, and a remount finds the same user. */
  lemma SubmitThenRestore(store: map<string, string>, email: string, from: Option<FromValue>)
    ensures RestoredUser(LoginStore(store, User("u1", DeriveName(email), Some(email)), Some(FakeToken)))
            == Success(Some(User("u1", DeriveName(email), Some(email))))
    ensures Show(true, from) == Redirect(GetFrom(from))
  {
    RestoreAfterLogin(store, User("u1", DeriveName(email), Some(email)), Some(FakeToken));
  }
}
