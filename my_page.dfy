/** The rules of the personal page (UI/src/pages/MyPage.tsx): the name it
    greets the user with, and its three cards, of which a disabled one has
    no click handler and the "tomorrow" one always reads "대기중". */
module MyPage {
  import opened Results
  import opened JsText
  import opened AuthContext

  const DefaultName := "사용자"

  /** The display name as written: no user gives the default; a name that
      is not blank, trimmed; an email with "@", the text before the first
      "@"; the default otherwise. */
  function DisplayNameAsWritten(user: Option<User>): (name: string)
  {
    if user.None? then DefaultName
    else if user.value.name != [] && Trim(user.value.name) != [] then Trim(user.value.name)
    else if user.value.email.Some? && user.value.email.value != [] && '@' in user.value.email.value
    then Before(user.value.email.value, '@')
    else DefaultName
  }

  /** An email that starts with "@" under a blank name greets nobody: the
      name shown is empty. */
  lemma EmptyPrefixShowsNothing()
    ensures DisplayNameAsWritten(Some(User("u1", " ", Some("@example.com")))) == []
  {
    assert Trim(" ") == [] by {
      assert TrimStart(" ") == [];
    }
    assert Before("@example.com", '@') == [];
  }

  /** The display name as its own comment orders it: the trimmed name, else
      the email's part before "@", else the default; an empty email part
      falls through to the default, as the login page's name rule does. */
  function DisplayName(user: Option<User>): (name: string)
    ensures name != []
    ensures user.None? ==> name == DefaultName
  {
    if user.None? then DefaultName
    else if user.value.name != [] && Trim(user.value.name) != [] then Trim(user.value.name)
    else if user.value.email.Some? && user.value.email.value != [] && '@' in user.value.email.value
            && Before(user.value.email.value, '@') != []
    then Before(user.value.email.value, '@')
    else DefaultName
  }

  /** Which text the page greets with: a non-blank name trimmed, otherwise a
      non-empty email part before "@" with no "@" in it, otherwise the
      default; and it never begins or ends with white space when it comes
      from the name. */
  lemma DisplayNameChoice(u: User)
    ensures !Blank(u.name) ==>
              (&& DisplayName(Some(u)) == Trim(u.name)
               && !IsSpace(DisplayName(Some(u))[0])
               && !IsSpace(DisplayName(Some(u))[|DisplayName(Some(u))| - 1]))
    ensures Blank(u.name) && u.email.Some? && '@' in u.email.value && Before(u.email.value, '@') != [] ==>
              DisplayName(Some(u)) == Before(u.email.value, '@') && '@' !in DisplayName(Some(u))
    ensures Blank(u.name) && (u.email.None? || '@' !in u.email.value || Before(u.email.value, '@') == []) ==>
              DisplayName(Some(u)) == DefaultName
  {
    TrimEnds(u.name);
  }

  /** The corrected rule agrees with the code everywhere except where the
      code shows an empty name. */
  lemma DisplayNameAgrees(user: Option<User>)
    ensures DisplayNameAsWritten(user) != [] ==> DisplayName(user) == DisplayNameAsWritten(user)
    ensures DisplayNameAsWritten(user) == [] ==> DisplayName(user) == DefaultName
  {
  }

  datatype CardId = Today | Yesterday | Tomorrow

  /** A card: its id, title, description, call to action, whether it is
      disabled, and where its handler navigates, if it has one. */
  datatype Card = Card(id: CardId, title: string, desc: string, cta: string, disabled: bool, target: Option<string>)

  /** The three cards of the page. */
  function Cards(): (cs: seq<Card>)
    ensures |cs| == 3
  {
    [ Card(Today, "오늘의 문제", "나의 학교 캠퍼스 소개하기", "학습하기", false, Some("/practice")),
      Card(Yesterday, "어제의 문제", "최근에 본 영화 소개하기", "복습하기", false, Some("/replay?qid=yesterday-q1")),
      Card(Tomorrow, "내일 풀 문제", "08시 이후 open", "대기중", true, None) ]
  }

  /** A card's button: its label and the navigation its click performs. */
  datatype Button = Button(caption: string, onClick: Option<string>, disabled: bool)

  function CardButton(c: Card): (b: Button)
    ensures c.disabled ==> b.onClick.None? && b.disabled
    ensures c.id == Tomorrow ==> b.caption == "대기중"
    ensures c.id != Tomorrow ==> b.caption == c.cta
    ensures !c.disabled ==> b.onClick == c.target
  {
    Button(if c.id == Tomorrow then "대기중" else c.cta, if c.disabled then None else c.target, c.disabled)
  }

  /** On the page, exactly the tomorrow card is disabled and waits; the two
      others lead to practice and to the replay of yesterday's question. */
  lemma CardButtons()
    ensures forall i :: 0 <= i < 3 ==> (CardButton(Cards()[i]).onClick.None? <==> Cards()[i].id == Tomorrow)
    ensures CardButton(Cards()[2]) == Button("대기중", None, true)
    ensures CardButton(Cards()[0]).onClick == Some("/practice")
    ensures CardButton(Cards()[1]).onClick == Some("/replay?qid=yesterday-q1")
  {
  }
}
