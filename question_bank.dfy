/** The question banks of the OPIc problem generator and the shape of what the
    generators return (server/opic_problems_router.py, with the identical copy
    in server/opic_test/main.py). */
module QuestionBank {
  import opened Results
  import Decimal
  import PyText

  /** One topic of a bank: question type ("description", "routine", ...,
      or "11" ... "15" in the role-play and advanced banks) to its questions. */
  type TopicData = map<string, seq<string>>

  /** A bank loaded from JSON: topic name to its questions. */
  type Bank = map<string, TopicData>

  /** The four banks the server loads at start-up. */
  datatype Banks = Banks(basic: Bank, unexpected: Bank, roleplay: Bank, advanced: Bank)

  /** The values of a question's "type" field. */
  datatype Kind = Description | Routine | Comparison | Experience | Introduce | Keyed(key: string)

  /** The "type" string itself; the role-play and advanced banks use their
      JSON keys ("11" ... "15") as the type. */
  function KindName(k: Kind): string
  {
    match k
    case Description => "description"
    case Routine => "routine"
    case Comparison => "comparison"
    case Experience => "experience"
    case Introduce => "introduce"
    case Keyed(key) => key
  }

  /** `{"number": ..., "type": ..., "text": ...}` */
  datatype Question = Question(number: int, kind: Kind, text: string)

  /** `{"topic": ..., "questions": [...]}` */
  datatype QuestionSet = QuestionSet(topic: string, questions: seq<Question>)

  /** `{"mode": ..., "count": ..., "sets": [...]}` */
  datatype Generation = Generation(mode: string, count: int, sets: seq<QuestionSet>)

  /** The exceptions the generators and the routes raise. */
  datatype Error =
    | ValueError(message: string)
    | KeyError(message: string)
    | HttpError(status: nat, detail: string)

  /** `str(e)`: a KeyError prints its argument as `repr` does; an
      HTTPException prints "<status>: <detail>". */
  function ErrorText(e: Error): (s: string)
    ensures e.ValueError? ==> s == e.message
    ensures e.KeyError? ==> PyText.ReadLiteral(s) == Some(e.message)
    ensures e.KeyError? ==> && |s| >= |e.message| + 2
                            && s[0] == PyText.Quote(e.message) && s[|s| - 1] == PyText.Quote(e.message)
    ensures s != [] || (e.ValueError? && e.message == [])
  {
    match e
    case ValueError(m) => m
    case KeyError(m) =>
      PyText.ReprRoundTrip(m);
      PyText.Repr(m)
    case HttpError(status, detail) => Decimal.DigitString(status) + ": " + detail
  }

  /** A KeyError whose message holds a single quote and no double quote
      prints in double quotes, the apostrophe as it is. */
  lemma KeyErrorWithApostrophe()
    ensures var m := "Topic not found: Tom's day"; ErrorText(KeyError(m)) == ['"'] + m + ['"']
  {
    var m := "Topic not found: Tom's day";
    assert m[20] == '\'';
    assert '\'' in m && '"' !in m;
    PyText.ReprPlain(m);
  }

  /** The types RULE_CAPS lists, in its order. */
  predicate Capped(k: Kind)
  {
    k == Routine || k == Comparison || k == Experience
  }

  const CappedKinds: seq<Kind> := [Routine, Comparison, Experience]

  /** RULE_CAPS: how many questions of each capped type one set may hold. */
  function Cap(k: Kind): nat
    requires Capped(k)
  {
    match k
    case Routine => 1
    case Comparison => 1
    case Experience => 2
  }

  /** `data.get(key, [])` */
  function Lookup(data: TopicData, key: string): seq<string>
  {
    if key in data then data[key] else []
  }

  /** The list of one question type of a topic. */
  function Pool(data: TopicData, kind: Kind): seq<string>
  {
    Lookup(data, KindName(kind))
  }

  /** How many questions of a capped type a set can take from this topic. */
  function Avail(data: TopicData, kind: Kind): nat
    requires Capped(kind)
  {
    Min(Cap(kind), |Pool(data, kind)|)
  }

  /** How many questions besides the description a set can take from this topic. */
  function Capacity(data: TopicData): (c: nat)
    ensures c <= 4
  {
    Avail(data, Routine) + Avail(data, Comparison) + Avail(data, Experience)
  }

  /** The texts of the questions of one type, in order. */
  function Texts(qs: seq<Question>, kind: Kind): (ts: seq<string>)
    ensures |ts| <= |qs|
  {
    if qs == [] then []
    else
      var last := qs[|qs| - 1];
      Texts(qs[..|qs| - 1], kind) + (if last.kind == kind then [last.text] else [])
  }

  function Count(qs: seq<Question>, kind: Kind): nat
  {
    |Texts(qs, kind)|
  }

  /** What `generate_set_from_bank(bank, topic, n)` promises about the questions
      it draws from `data = bank[topic]`, here with the numbering starting at
      `first` so that the mock test's renumbered blocks satisfy it too:
      a description first, then capped types only, each type within its cap,
      each drawn text taken from (and removed from) its type's pool, numbers
      consecutive, and exactly as many questions as the loop can draw before
      it reaches `n` or runs out of candidates. */
  ghost predicate GeneratedFrom(data: TopicData, n: int, first: int, qs: seq<Question>)
  {
    && |qs| == 1 + Min(Max(n - 1, 0), Capacity(data))
    && qs[0].kind == Description
    && qs[0].text in Pool(data, Description)
    && (forall i :: 0 <= i < |qs| ==> qs[i].number == first + i)
    && (forall i :: 1 <= i < |qs| ==> Capped(qs[i].kind))
    && KindDrawn(data, qs, Routine)
    && KindDrawn(data, qs, Comparison)
    && KindDrawn(data, qs, Experience)
  }

  /** A capped type holds at most its cap, and its texts were taken from
      its pool, each occurrence at most once. */
  ghost predicate KindDrawn(data: TopicData, qs: seq<Question>, k: Kind)
    requires Capped(k)
  {
    Count(qs, k) <= Cap(k) && multiset(Texts(qs, k)) <= multiset(Pool(data, k))
  }

  /** The (number, type) slots that the role-play and advanced loops fill:
      one per key whose list is non-empty, in key order, numbered by the
      key's own number. */
  function Slots(block: TopicData, keys: seq<string>, numbers: seq<int>): (s: seq<(int, string)>)
    requires |keys| == |numbers|
    ensures |s| <= |keys|
  {
    if keys == [] then []
    else
      var m := |keys| - 1;
      Slots(block, keys[..m], numbers[..m]) + (if Lookup(block, keys[m]) != [] then [(numbers[m], keys[m])] else [])
  }

  /** The role-play / advanced loops drew one text for each slot, from that
      slot's list; the question's type is the key itself. */
  ghost predicate KeyedDraw(block: TopicData, keys: seq<string>, numbers: seq<int>, qs: seq<Question>)
  {
    && |keys| == |numbers|
    && |qs| == |Slots(block, keys, numbers)|
    && forall j :: 0 <= j < |qs| ==>
         && (qs[j].number, qs[j].kind) == (Slots(block, keys, numbers)[j].0, Keyed(Slots(block, keys, numbers)[j].1))
         && qs[j].text in Lookup(block, Slots(block, keys, numbers)[j].1)
  }

  /** `sum(len(s["questions"]) for s in sets)` */
  function TotalQuestions(sets: seq<QuestionSet>): nat
  {
    if sets == [] then 0 else TotalQuestions(sets[..|sets| - 1]) + |sets[|sets| - 1].questions|
  }

  /** All question numbers of the sets, in order. */
  function AllNumbers(sets: seq<QuestionSet>): seq<int>
  {
    if sets == [] then [] else AllNumbers(sets[..|sets| - 1]) + Numbers(sets[|sets| - 1].questions)
  }

  function Numbers(qs: seq<Question>): (ns: seq<int>)
    ensures |ns| == |qs|
    ensures forall i :: 0 <= i < |qs| ==> ns[i] == qs[i].number
  {
    seq(|qs|, i requires 0 <= i < |qs| => qs[i].number)
  }

  lemma {:induction false} AllNumbersCount(sets: seq<QuestionSet>)
    ensures |AllNumbers(sets)| == TotalQuestions(sets)
  {
    if sets != [] {
      AllNumbersCount(sets[..|sets| - 1]);
    }
  }

  predicate Increasing(s: seq<int>)
  {
    forall i, j :: 0 <= i < j < |s| ==> s[i] < s[j]
  }
}
