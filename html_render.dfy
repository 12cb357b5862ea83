/** The preview page of a generation: `_badge_label`, the title map and the
    text that `render_result_html` puts into the page
    (server/opic_test/main.py:199-296, which escapes with `html.escape`;
    server/opic_problems_router.py:203-296, which inserts text as it is).
    The page is modelled as its structure; the CSS and the surrounding
    markup are constant template text and are not modelled. */
module HtmlRender {
  import opened QuestionBank

  /** What the generate routes render: a generation, or `{"error": msg}`. */
  datatype Payload = Generated(g: Generation) | ErrorPayload(error: string)

  /** One `<li class="q">`: the number after "Q", the badge's class, the
      badge's label, and the question text. */
  datatype Item = Item(number: int, badgeClass: string, badge: string, text: string)

  /** One `<section>`: the text after "TOPIC · " and its items. */
  datatype Section = Section(topic: string, items: seq<Item>)

  /** The failure page (title "생성 실패") with its message, or the result
      page with the title word and one section per set. */
  datatype Page = FailurePage(message: string) | ResultPage(title: string, sections: seq<Section>)

  /** The characters `html.escape(s, quote=True)` replaces. */
  predicate Markup(c: char)
  {
    c == '&' || c == '<' || c == '>' || c == '"' || c == '\''
  }

  /** The replacement of one character. `html.escape` replaces `&` first
      and none of the replacements holds another replaced character, so the
      chain of `str.replace` calls acts character by character. */
  function EscapeChar(c: char): (r: string)
    ensures Markup(c) ==> |r| >= 4 && r[0] == '&'
    ensures !Markup(c) ==> r == [c]
  {
    if c == '&' then "&amp;"
    else if c == '<' then "&lt;"
    else if c == '>' then "&gt;"
    else if c == '"' then "&quot;"
    else if c == '\'' then "&#x27;"
    else [c]
  }

  /** `html.escape(s)` */
  function Escape(s: string): (r: string)
    ensures |r| >= |s|
  {
    if s == [] then [] else EscapeChar(s[0]) + Escape(s[1..])
  }

  /** The inverse of `Escape`: the five entities back to their characters. */
  function Unescape(s: string): (r: string)
    ensures |r| <= |s|
  {
    if s == [] then []
    else if s[0] != '&' then [s[0]] + Unescape(s[1..])
    else if |s| >= 5 && s[1] == 'a' && s[2] == 'm' && s[3] == 'p' && s[4] == ';' then ['&'] + Unescape(s[5..])
    else if |s| >= 4 && s[1] == 'l' && s[2] == 't' && s[3] == ';' then ['<'] + Unescape(s[4..])
    else if |s| >= 4 && s[1] == 'g' && s[2] == 't' && s[3] == ';' then ['>'] + Unescape(s[4..])
    else if |s| >= 6 && s[1] == 'q' && s[2] == 'u' && s[3] == 'o' && s[4] == 't' && s[5] == ';' then ['"'] + Unescape(s[6..])
    else if |s| >= 6 && s[1] == '#' && s[2] == 'x' && s[3] == '2' && s[4] == '7' && s[5] == ';' then ['\''] + Unescape(s[6..])
    else ['&'] + Unescape(s[1..])
  }

  lemma UnescapeChar(c: char, rest: string)
    ensures Unescape(EscapeChar(c) + rest) == [c] + Unescape(rest)
  {
    var e := EscapeChar(c) + rest;
    if !Markup(c) {
      assert e[0] == c && e[1..] == rest;
    } else {
      var n := |EscapeChar(c)|;
      assert e[n..] == rest;
      assert forall i :: 0 <= i < n ==> e[i] == EscapeChar(c)[i];
    }
  }

  /** Unescaping an escaped text gives the text back. */
  lemma {:induction false} EscapeRoundTrip(s: string)
    ensures Unescape(Escape(s)) == s
  {
    if s != [] {
      UnescapeChar(s[0], Escape(s[1..]));
      EscapeRoundTrip(s[1..]);
    }
  }

  /** An escaped text holds no `<`, `>`, `"` or `'`: it cannot open a tag or
      close an attribute. */
  lemma {:induction false} EscapeNoMarkup(s: string)
    ensures forall i :: 0 <= i < |Escape(s)| ==> Escape(s)[i] != '<' && Escape(s)[i] != '>'
                                                 && Escape(s)[i] != '"' && Escape(s)[i] != '\''
  {
    if s != [] {
      EscapeNoMarkup(s[1..]);
      var head := EscapeChar(s[0]);
      assert forall i :: 0 <= i < |head| ==> head[i] != '<' && head[i] != '>' && head[i] != '"' && head[i] != '\'';
    }
  }

  /** A text without markup characters is left as it is. */
  lemma {:induction false} EscapePlain(s: string)
    requires forall i :: 0 <= i < |s| ==> !Markup(s[i])
    ensures Escape(s) == s
  {
    if s != [] {
      EscapePlain(s[1..]);
    }
  }

  /** `_badge_label(mode, t)`; `mode` is not used. */
  function BadgeLabel(mode: string, t: string): (badge: string)
    ensures t == "introduce" ==> badge == "INTRO"
    ensures t in ["11", "12", "13", "14", "15"] ==> badge == t
    ensures badge != t ==> t in ["introduce", "description", "routine", "comparison", "experience"]
  {
    if t == "introduce" then "INTRO"
    else if t in ["11", "12", "13", "14", "15"] then t
    else if t == "description" then "묘사"
    else if t == "routine" then "루틴"
    else if t == "comparison" then "비교"
    else if t == "experience" then "경험"
    else t
  }

  /** The types the generators produce. */
  predicate GeneratedKind(k: Kind)
  {
    k.Keyed? ==> k.key in ["11", "12", "13", "14", "15"]
  }

  /** Each type a generator produces gets its own badge: the survey types
      their Korean names, the intro "INTRO", the keyed types their key. */
  lemma BadgesOfKinds(mode: string, k: Kind)
    requires GeneratedKind(k)
    ensures k == Description ==> BadgeLabel(mode, KindName(k)) == "묘사"
    ensures k == Routine ==> BadgeLabel(mode, KindName(k)) == "루틴"
    ensures k == Comparison ==> BadgeLabel(mode, KindName(k)) == "비교"
    ensures k == Experience ==> BadgeLabel(mode, KindName(k)) == "경험"
    ensures k == Introduce ==> BadgeLabel(mode, KindName(k)) == "INTRO"
    ensures k.Keyed? ==> BadgeLabel(mode, KindName(k)) == k.key
  {
  }

  /** Different generated types never share a badge. */
  lemma BadgesDistinguishKinds(mode: string, k1: Kind, k2: Kind)
    requires GeneratedKind(k1) && GeneratedKind(k2) && k1 != k2
    ensures BadgeLabel(mode, KindName(k1)) != BadgeLabel(mode, KindName(k2))
  {
    BadgesOfKinds(mode, k1);
    BadgesOfKinds(mode, k2);
  }

  const KnownModes: seq<string> := ["survey", "unexpected", "roleplay", "advanced", "full15"]

  /** `title_map.get(mode, "문항")` */
  function TitleFor(mode: string): (title: string)
    ensures title == "문항" <==> mode !in KnownModes
  {
    if mode == "survey" then "서베이"
    else if mode == "unexpected" then "돌발"
    else if mode == "roleplay" then "롤플레잉"
    else if mode == "advanced" then "어드밴스"
    else if mode == "full15" then "통합 15"
    else "문항"
  }

  /** A text as the page shows it: escaped in the standalone app, as it is
      in the router. */
  function Shown(s: string, escaping: bool): string
  {
    if escaping then Escape(s) else s
  }

  function RenderItem(mode: string, q: Question, escaping: bool): Item
  {
    Item(q.number, KindName(q.kind), BadgeLabel(mode, KindName(q.kind)), Shown(q.text, escaping))
  }

  function RenderSection(mode: string, s: QuestionSet, escaping: bool): (sec: Section)
    ensures |sec.items| == |s.questions|
  {
    Section(Shown(s.topic, escaping),
            seq(|s.questions|, j requires 0 <= j < |s.questions| => RenderItem(mode, s.questions[j], escaping)))
  }

  /** `render_result_html(payload)` */
  function Render(p: Payload, escaping: bool): (page: Page)
    ensures p.ErrorPayload? <==> page.FailurePage?
    ensures page.ResultPage? ==> |page.sections| == |p.g.sets|
  {
    match p
    case ErrorPayload(e) => FailurePage(Shown(e, escaping))
    case Generated(g) =>
      ResultPage(TitleFor(g.mode),
                 seq(|g.sets|, i requires 0 <= i < |g.sets| => RenderSection(g.mode, g.sets[i], escaping)))
  }

  /** With escaping, every topic and question text of the page is free of
      markup characters and unescapes to the generated text; numbers and
      badges follow the questions one for one. */
  lemma RenderEscaped(g: Generation, i: int, j: int)
    requires 0 <= i < |g.sets| && 0 <= j < |g.sets[i].questions|
    ensures var page := Render(Generated(g), true);
            var item := page.sections[i].items[j];
            && Unescape(page.sections[i].topic) == g.sets[i].topic
            && Unescape(item.text) == g.sets[i].questions[j].text
            && (forall c :: c in item.text ==> c != '<' && c != '>' && c != '"' && c != '\'')
            && item.number == g.sets[i].questions[j].number
            && item.badge == BadgeLabel(g.mode, KindName(g.sets[i].questions[j].kind))
  {
    var q := g.sets[i].questions[j];
    EscapeRoundTrip(g.sets[i].topic);
    EscapeRoundTrip(q.text);
    EscapeNoMarkup(q.text);
  }

  /** Without escaping (the router's page) a question text reaches the page
      unchanged, markup characters included. */
  lemma RenderRaw(g: Generation, i: int, j: int)
    requires 0 <= i < |g.sets| && 0 <= j < |g.sets[i].questions|
    ensures Render(Generated(g), false).sections[i].items[j].text == g.sets[i].questions[j].text
    ensures Render(Generated(g), false).sections[i].topic == g.sets[i].topic
  {
  }

  /** The failure page shows the error message, escaped where the page escapes. */
  lemma RenderFailure(e: string, escaping: bool)
    ensures Render(ErrorPayload(e), escaping).FailurePage?
    ensures escaping ==> Unescape(Render(ErrorPayload(e), escaping).message) == e
    ensures !escaping ==> Render(ErrorPayload(e), escaping).message == e
  {
    EscapeRoundTrip(e);
  }
}
