/** The client's authentication store (UI/src/contexts/AuthContext.tsx):
    the signed-in user, kept in memory and in `localStorage` under
    `auth_user` (as JSON) and `auth_token`. `localStorage` is a map from
    keys to texts; the JSON text of a user is written and read by the
    encoder and decoder below, which cover the shape the store writes. */
module AuthContext {
  import opened Results
  import opened Hex

  /** `{ id, name, email? }` */
  datatype User = User(id: string, name: string, email: Option<string>)

  const UserKey := "auth_user"
  const TokenKey := "auth_token"
  const OutsideProviderMessage := "useAuth must be used within AuthProvider"

  /** The value of the four hexadecimal digits of a `\u` escape. */
  function HexQuad(h: string): (r: Option<nat>)
    requires |h| == 4
    ensures r.Some? ==> r.value < 0x1_0000
  {
    match (HexValue(h[0]), HexValue(h[1]), HexValue(h[2]), HexValue(h[3]))
    case (Some(a), Some(b), Some(c), Some(d)) => Some(a * 0x1000 + b * 0x100 + c * 0x10 + d)
    case _ => None
  }

  /** The letter `JSON.stringify` writes after a backslash for `c`, when
      `c` has a two-character escape. */
  function ShortEscape(c: char): (r: Option<char>)
  {
    if c == '"' then Some('"')
    else if c == '\\' then Some('\\')
    else if c as int == 0x08 then Some('b')
    else if c as int == 0x0C then Some('f')
    else if c == '\n' then Some('n')
    else if c == '\r' then Some('r')
    else if c == '\t' then Some('t')
    else None
  }

  /** The character a two-character escape `\e` stands for in `JSON.parse`;
      `\/` is read although it is never written. */
  function Unescape(e: char): (r: Option<char>)
    ensures r.Some? ==> ShortEscape(r.value) == Some(e) || e == '/'
  {
    if e == '"' then Some('"')
    else if e == '\\' then Some('\\')
    else if e == '/' then Some('/')
    else if e == 'b' then Some(0x08 as char)
    else if e == 'f' then Some(0x0C as char)
    else if e == 'n' then Some('\n')
    else if e == 'r' then Some('\r')
    else if e == 't' then Some('\t')
    else None
  }

  /** No character of `s` is a control character. */
  predicate NoControl(s: string)
  {
    forall i :: 0 <= i < |s| ==> s[i] as int >= 0x20
  }

  /** How `JSON.stringify` writes one character inside a string literal:
      a two-character escape where there is one, `\u00xx` for any other
      control character, and the character itself otherwise. */
  function EscapeChar(c: char): (r: string)
    ensures |r| >= 1 && NoControl(r)
    ensures r == [c] <==> ShortEscape(c).None? && c as int >= 0x20
    ensures r != [c] ==> r[0] == '\\'
  {
    match ShortEscape(c)
    case Some(e) => ['\\', e]
    case None =>
      if c as int < 0x20 then ['\\', 'u', '0', '0', HexDigit(c as int / 16), HexDigit(c as int % 16)]
      else [c]
  }

  /** The body of a JSON string literal as `JSON.stringify` writes it. It
      holds no control character, so `JSON.parse` accepts it. */
  function EscapeJson(s: string): (r: string)
    ensures |r| >= |s| && NoControl(r)
  {
    if s == [] then []
    else
      var e, t := EscapeChar(s[0]), EscapeJson(s[1..]);
      assert forall i :: 0 <= i < |e + t| ==> (e + t)[i] == if i < |e| then e[i] else t[i - |e|];
      e + t
  }

  /** Reads the escape after a backslash: the character it stands for and
      what follows it. A `\u` escape of a surrogate is not read. */
  function ReadEscape(s: string): (r: Option<(char, string)>)
    ensures r.Some? ==> |r.value.1| < |s|
  {
    if s == [] then None
    else if s[0] == 'u' then
      if |s| < 5 then None
      else
        match HexQuad(s[1..5])
        case None => None
        case Some(v) => if 0xD800 <= v < 0xE000 then None else Some((v as char, s[5..]))
    else
      match Unescape(s[0])
      case None => None
      case Some(c) => Some((c, s[1..]))
  }

  /** Reads a string literal's body up to its closing quote, as `JSON.parse`
      does: the text and what follows the quote. A raw control character
      or a malformed escape is a parse failure. */
  function ReadString(s: string): (r: Option<(string, string)>)
    ensures r.Some? ==> |r.value.1| < |s|
    decreases |s|
  {
    if s == [] then None
    else if s[0] == '"' then Some(([], s[1..]))
    else if s[0] == '\\' then
      match ReadEscape(s[1..])
      case None => None
      case Some((c, after)) =>
        match ReadString(after)
        case None => None
        case Some((text, rest)) => Some(([c] + text, rest))
    else if s[0] as int < 0x20 then None
    else
      match ReadString(s[1..])
      case None => None
      case Some((text, rest)) => Some(([s[0]] + text, rest))
  }

  /** The escape written for a character reads back as that character. */
  lemma ReadEscapeOf(c: char, tail: string)
    requires EscapeChar(c) != [c]
    ensures ReadEscape(EscapeChar(c)[1..] + tail) == Some((c, tail))
  {
    var e := EscapeChar(c);
    var t := e[1..] + tail;
    if ShortEscape(c).Some? {
      assert e == ['\\', ShortEscape(c).value];
      assert t[0] == ShortEscape(c).value && t[1..] == tail;
    } else {
      var hi, lo := c as int / 16, c as int % 16;
      assert c as int < 0x20 && hi < 2;
      assert e == ['\\', 'u', '0', '0', HexDigit(hi), HexDigit(lo)];
      assert t[0] == 'u' && t[5..] == tail;
      var h := t[1..5];
      assert h == ['0', '0', HexDigit(hi), HexDigit(lo)];
      HexValueOf(0);
      HexValueOf(hi);
      HexValueOf(lo);
      assert HexQuad(h) == Some(hi * 0x10 + lo);
      assert hi * 0x10 + lo == c as int;
    }
  }

  /** Reading stops at the first unescaped quote, so an escaped text
      followed by a quote reads back as that text. */
  lemma {:induction false} ReadEscaped(s: string, rest: string)
    ensures ReadString(EscapeJson(s) + ['"'] + rest) == Some((s, rest))
  {
    if s == [] {
      assert EscapeJson(s) + ['"'] + rest == ['"'] + rest;
    } else {
      var c, tail := s[0], EscapeJson(s[1..]) + ['"'] + rest;
      assert EscapeJson(s) + ['"'] + rest == EscapeChar(c) + tail by {
        assert EscapeJson(s) == EscapeChar(c) + EscapeJson(s[1..]);
      }
      assert [c] + s[1..] == s;
      ReadEscaped(s[1..], rest);
      ReadCharThen(c, tail, s[1..], rest);
    }
  }

  /** The text written for one character reads back as that character,
      whatever follows it. */
  lemma ReadCharThen(c: char, tail: string, s: string, rest: string)
    requires ReadString(tail) == Some((s, rest))
    ensures ReadString(EscapeChar(c) + tail) == Some(([c] + s, rest))
  {
    var e := EscapeChar(c);
    if e == [c] {
      ReadPlain(c, tail, s, rest);
    } else {
      var u := e[1..];
      assert e == ['\\'] + u;
      assert e + tail == ['\\'] + (u + tail);
      ReadEscapeOf(c, tail);
      ReadBackslash(c, u, tail, s, rest);
    }
  }

  /** A character written as itself is read as itself. */
  lemma ReadPlain(c: char, tail: string, s: string, rest: string)
    requires ShortEscape(c).None? && c as int >= 0x20
    requires ReadString(tail) == Some((s, rest))
    ensures ReadString([c] + tail) == Some(([c] + s, rest))
  {
    var t := [c] + tail;
    assert t[0] == c && t[1..] == tail;
  }

  /** A character written as an escape is read back from the escape. */
  lemma ReadBackslash(c: char, u: string, tail: string, s: string, rest: string)
    requires ReadEscape(u + tail) == Some((c, tail))
    requires ReadString(tail) == Some((s, rest))
    ensures ReadString(['\\'] + (u + tail)) == Some(([c] + s, rest))
  {
    var t := ['\\'] + (u + tail);
    assert t[0] == '\\' && t[1..] == u + tail;
  }

  /** `s` with `p` removed from its front, when it starts with `p`. */
  function DropPrefix(p: string, s: string): (r: Option<string>)
    ensures r.Some? ==> s == p + r.value
  {
    if |p| <= |s| && s[..|p|] == p then Some(s[|p|..]) else None
  }

  lemma DropPrefixOf(p: string, rest: string)
    ensures DropPrefix(p, p + rest) == Some(rest)
  {
    assert (p + rest)[..|p|] == p;
    assert (p + rest)[|p|..] == rest;
  }

  const IdField := "{\"id\":\""
  const NameField := ",\"name\":\""
  const EmailField := ",\"email\":\""

  /** `JSON.stringify(u)`: `{"id":"…","name":"…"}`, with `,"email":"…"`
      before the brace when the user has an email. */
  function EncodeUser(u: User): string
  {
    IdField + (EscapeJson(u.id) + (['"'] + (NameField + (EscapeJson(u.name) + (['"'] + EmailPart(u.email))))))
  }

  function EmailPart(email: Option<string>): string
  {
    if email.None? then "}" else EmailField + (EscapeJson(email.value) + (['"'] + "}"))
  }

  /** `JSON.parse` of a stored user text; `None` where it throws or where
      the text is not a user of this shape. */
  function DecodeUser(s: string): (r: Option<User>)
  {
    match DropPrefix(IdField, s)
    case None => None
    case Some(s1) =>
      match ReadString(s1)
      case None => None
      case Some((id, s2)) =>
        match DropPrefix(NameField, s2)
        case None => None
        case Some(s3) =>
          match ReadString(s3)
          case None => None
          case Some((name, s4)) =>
            if s4 == "}" then Some(User(id, name, None))
            else
              match DropPrefix(EmailField, s4)
              case None => None
              case Some(s5) =>
                match ReadString(s5)
                case None => None
                case Some((email, s6)) => if s6 == "}" then Some(User(id, name, Some(email))) else None
  }

  /** What `login` stores is what a later mount reads back. */
  lemma DecodeEncode(u: User)
    ensures DecodeUser(EncodeUser(u)) == Some(u)
  {
    var emailPart := EmailPart(u.email);
    var afterName := ['"'] + emailPart;
    var s3 := EscapeJson(u.name) + afterName;
    var afterId := ['"'] + (NameField + s3);
    var s1 := EscapeJson(u.id) + afterId;
    DropPrefixOf(IdField, s1);
    assert s1 == EscapeJson(u.id) + ['"'] + (NameField + s3);
    ReadEscaped(u.id, NameField + s3);
    DropPrefixOf(NameField, s3);
    assert s3 == EscapeJson(u.name) + ['"'] + emailPart;
    ReadEscaped(u.name, emailPart);
    if u.email.Some? {
      var s5 := EscapeJson(u.email.value) + (['"'] + "}");
      assert emailPart != "}" by { assert |emailPart| > 1; }
      DropPrefixOf(EmailField, s5);
      assert s5 == EscapeJson(u.email.value) + ['"'] + "}";
      ReadEscaped(u.email.value, "}");
    }
  }

  /** `localStorage` after `login(u, token)`: the user's JSON under
      `auth_user`, and the token under `auth_token` when one is given. */
  function LoginStore(store: map<string, string>, u: User, token: Option<string>): (r: map<string, string>)
    ensures UserKey in r && r[UserKey] == EncodeUser(u)
    ensures token.Some? && token.value != [] ==> TokenKey in r && r[TokenKey] == token.value
    ensures (token.None? || token.value == []) ==>
              (TokenKey in r <==> TokenKey in store) && (TokenKey in store ==> r[TokenKey] == store[TokenKey])
    ensures forall k :: k != UserKey && k != TokenKey ==> (k in r <==> k in store) && (k in r ==> r[k] == store[k])
  {
    var withUser := store[UserKey := EncodeUser(u)];
    if token.Some? && token.value != [] then withUser[TokenKey := token.value] else withUser
  }

  /** `localStorage` after `logout()`: both keys removed, the rest kept. */
  function LogoutStore(store: map<string, string>): (r: map<string, string>)
    ensures UserKey !in r && TokenKey !in r
    ensures forall k :: k != UserKey && k != TokenKey ==> (k in r <==> k in store) && (k in r ==> r[k] == store[k])
  {
    store - {UserKey, TokenKey}
  }

  /** The user a mount restores from `localStorage`: none when `auth_user`
      is missing or empty, the parsed user otherwise, or a parse failure. */
  function RestoredUser(store: map<string, string>): (r: Result<Option<User>, string>)
    ensures UserKey !in store ==> r == Success(None)
  {
    if UserKey !in store || store[UserKey] == [] then Success(None)
    else match DecodeUser(store[UserKey])
      case Some(u) => Success(Some(u))
      case None => Failure("SyntaxError")
  }

  /** A login survives a remount: the next mount restores the same user. */
  lemma RestoreAfterLogin(store: map<string, string>, u: User, token: Option<string>)
    ensures RestoredUser(LoginStore(store, u, token)) == Success(Some(u))
  {
    DecodeEncode(u);
  }

  /** After a logout the next mount restores nobody. */
  lemma RestoreAfterLogout(store: map<string, string>)
    ensures RestoredUser(LogoutStore(store)) == Success(None)
  {
  }

  /** What `useAuth()` hands out. */
  datatype AuthView = AuthView(user: Option<User>, isAuthed: bool)

  class AuthProvider {
    var user: Option<User>
    var store: map<string, string>

    /** The provider mounts with no user, over the given storage. */
    constructor (storage: map<string, string>)
      ensures user.None? && store == storage
    {
      user := None;
      store := storage;
    }

    /** The mount effect: reads `auth_user` back. A text that does not parse
        throws and leaves the user as it was. */
    method Restore() returns (r: Result<Option<User>, string>)
      modifies this
      ensures r == RestoredUser(old(store))
      ensures r.Success? && r.value.Some? ==> user == r.value
      ensures !(r.Success? && r.value.Some?) ==> user == old(user)
      ensures store == old(store)
    {
      r := RestoredUser(store);
      if r.Success? && r.value.Some? {
        user := r.value;
      }
    }

    /** `login(u, token)`. */
    method Login(u: User, token: Option<string>)
      modifies this
      ensures user == Some(u) && store == LoginStore(old(store), u, token)
    {
      user := Some(u);
      store := store[UserKey := EncodeUser(u)];
      if token.Some? && token.value != [] {
        store := store[TokenKey := token.value];
      }
    }

    /** `logout()`. */
    method Logout()
      modifies this
      ensures user.None? && store == LogoutStore(old(store))
    {
      user := None;
      store := store - {UserKey};
      store := store - {TokenKey};
    }

    /** The context value: `isAuthed` is `!!user`. */
    function View(): (v: AuthView)
      reads this
      ensures v.isAuthed <==> v.user.Some?
      ensures v.user == user
    {
      AuthView(user, user.Some?)
    }
  }

  /** `useAuth()`: the context value, or the error outside a provider. */
  function UseAuth(context: Option<AuthView>): (r: Result<AuthView, string>)
    ensures context.None? <==> r == Failure(OutsideProviderMessage)
    ensures context.Some? ==> r == Success(context.value)
  {
    if context.None? then Failure(OutsideProviderMessage) else Success(context.value)
  }
}
