/** The mode generators built on `generate_set_from_bank`: unexpected,
    survey, role-play, advanced and the 15-question mock test
    (server/opic_problems_router.py:87-198; server/opic_test/main.py:83-195
    holds the same code). The module-level banks are parameters. */
module ModeGenerators {
  import opened Results
  import opened QuestionBank
  import opened SetGenerator

  const SurveyTooFewMessage := "basic_questions.json must contain at least 2 topics."
  /** What `random.sample(population, 2)` raises for fewer than two topics. */
  const SampleMessage := "Sample larger than population or is negative"
  const IntroText := "Let’s start the interview now. Tell me something about yourself."
  const RoleplayKeys: seq<string> := ["11", "12", "13"]
  const AdvancedKeys: seq<string> := ["14", "15"]

  /** The mock test's fixed first set. */
  function IntroSet(): QuestionSet
  {
    QuestionSet("INTRO", [Question(1, Introduce, IntroText)])
  }

  /** Some key of `keys` has a non-empty list in the block. */
  predicate AnyKey(block: TopicData, keys: seq<string>)
  {
    exists key :: key in keys && Lookup(block, key) != []
  }

  lemma SlotsUnfold(block: TopicData, keys: seq<string>, numbers: seq<int>)
    requires |keys| == |numbers| && keys != []
    ensures Slots(block, keys, numbers)
            == Slots(block, keys[..|keys| - 1], numbers[..|keys| - 1])
               + (if Lookup(block, keys[|keys| - 1]) != [] then [(numbers[|keys| - 1], keys[|keys| - 1])] else [])
  {
  }

  /** A slot is drawn exactly when some key has questions. */
  lemma SlotsNonEmpty(block: TopicData, keys: seq<string>, numbers: seq<int>)
    requires |keys| == |numbers|
    ensures Slots(block, keys, numbers) != [] <==> AnyKey(block, keys)
  {
    SlotsFromKey(block, keys, numbers);
    KeyFromSlots(block, keys, numbers);
  }

  lemma {:induction false} SlotsFromKey(block: TopicData, keys: seq<string>, numbers: seq<int>)
    requires |keys| == |numbers|
    ensures AnyKey(block, keys) ==> Slots(block, keys, numbers) != []
    decreases |keys|
  {
    if keys != [] {
      var m := |keys| - 1;
      SlotsUnfold(block, keys, numbers);
      SlotsFromKey(block, keys[..m], numbers[..m]);
      assert keys == keys[..m] + [keys[m]];
      if Lookup(block, keys[m]) == [] {
        assert forall key :: key in keys && Lookup(block, key) != [] ==> key in keys[..m];
      }
    }
  }

  lemma {:induction false} KeyFromSlots(block: TopicData, keys: seq<string>, numbers: seq<int>)
    requires |keys| == |numbers|
    ensures Slots(block, keys, numbers) != [] ==> AnyKey(block, keys)
    decreases |keys|
  {
    if keys != [] {
      var m := |keys| - 1;
      SlotsUnfold(block, keys, numbers);
      KeyFromSlots(block, keys[..m], numbers[..m]);
      if Slots(block, keys, numbers) != [] {
        if Lookup(block, keys[m]) != [] {
          assert keys[m] in keys;
        } else {
          assert Slots(block, keys, numbers) == Slots(block, keys[..m], numbers[..m]);
          var key :| key in keys[..m] && Lookup(block, key) != [];
          assert key in keys;
        }
      }
    }
  }

  /** Every slot number is one of `numbers`, and for increasing numbers the
      slots keep their order (a skipped key leaves a gap). */
  lemma {:induction false} SlotOrder(block: TopicData, keys: seq<string>, numbers: seq<int>)
    requires |keys| == |numbers|
    ensures forall j :: 0 <= j < |Slots(block, keys, numbers)| ==> Slots(block, keys, numbers)[j].0 in numbers
    ensures Increasing(numbers) ==>
              forall a, b :: 0 <= a < b < |Slots(block, keys, numbers)| ==>
                Slots(block, keys, numbers)[a].0 < Slots(block, keys, numbers)[b].0
    decreases |keys|
  {
    if keys != [] {
      var m := |keys| - 1;
      var pre := Slots(block, keys[..m], numbers[..m]);
      SlotsUnfold(block, keys, numbers);
      SlotOrder(block, keys[..m], numbers[..m]);
      forall j | 0 <= j < |pre|
        ensures pre[j].0 in numbers
        ensures Increasing(numbers) ==> pre[j].0 < numbers[m]
      {
        var i :| 0 <= i < m && numbers[..m][i] == pre[j].0;
        assert numbers[i] == pre[j].0;
      }
    }
  }

  /** With every key's list non-empty, each key gets its slot, in order. */
  lemma {:induction false} SlotsFull(block: TopicData, keys: seq<string>, numbers: seq<int>)
    requires |keys| == |numbers|
    requires forall i :: 0 <= i < |keys| ==> Lookup(block, keys[i]) != []
    ensures |Slots(block, keys, numbers)| == |keys|
    ensures forall i :: 0 <= i < |keys| ==> Slots(block, keys, numbers)[i] == (numbers[i], keys[i])
    decreases |keys|
  {
    if keys != [] {
      var m := |keys| - 1;
      SlotsFull(block, keys[..m], numbers[..m]);
    }
  }

  /** The role-play / advanced loop over (key, number) pairs:
      `lst = list(block.get(key, [])); if lst: append(random.choice(lst))`. */
  method DrawKeyed(block: TopicData, keys: seq<string>, numbers: seq<int>) returns (qs: seq<Question>)
    requires |keys| == |numbers|
    ensures KeyedDraw(block, keys, numbers, qs)
  {
    qs := [];
    for i := 0 to |keys|
      invariant KeyedDraw(block, keys[..i], numbers[..i], qs)
    {
      assert keys[..i + 1][..i] == keys[..i] && numbers[..i + 1][..i] == numbers[..i];
      var lst := Lookup(block, keys[i]);
      if lst != [] {
        assert lst[0] in lst;
        var q :| q in lst;
        qs := qs + [Question(numbers[i], Keyed(keys[i]), q)];
      }
    }
    assert keys[..|keys|] == keys && numbers[..|numbers|] == numbers;
  }

  /** How a keyed draw fails: an empty bank, or a chosen topic none of
      whose keys has questions. */
  ghost predicate KeyedFailure(bank: Bank, keys: seq<string>, emptyMessage: string, e: Error)
  {
    || (bank == map[] && e == ValueError(EmptyBankMessage))
    || (exists t :: t in bank && !AnyKey(bank[t], keys) && e == ValueError(emptyMessage + t))
  }

  /** Every topic of the bank has questions under some key. */
  ghost predicate KeyedSound(bank: Bank, keys: seq<string>)
  {
    forall t :: t in bank ==> AnyKey(bank[t], keys)
  }

  /** `pick_random_topic`, the keyed loop, and the ValueError when nothing
      was drawn: the shared body of the role-play and advanced draws. */
  method KeyedSet(bank: Bank, keys: seq<string>, numbers: seq<int>, emptyMessage: string)
    returns (r: Result<QuestionSet, Error>)
    requires |keys| == |numbers|
    ensures r.Failure? ==> KeyedFailure(bank, keys, emptyMessage, r.error)
    ensures bank != map[] && KeyedSound(bank, keys) ==> r.Success?
    ensures bank == map[] ==> r.Failure?
    ensures r.Success? ==> r.value.topic in bank && r.value.questions != []
                           && KeyedDraw(bank[r.value.topic], keys, numbers, r.value.questions)
  {
    var picked := PickRandomTopic(bank);
    if picked.Failure? {
      return Failure(picked.error);
    }
    var topic := picked.value;
    var qs := DrawKeyed(bank[topic], keys, numbers);
    SlotsNonEmpty(bank[topic], keys, numbers);
    if qs == [] {
      return Failure(ValueError(emptyMessage + topic));
    }
    return Success(QuestionSet(topic, qs));
  }

  /** How `generate_set_from_bank(bank, None, n)` fails. */
  ghost predicate TopicFailure(bank: Bank, e: Error)
  {
    || (bank == map[] && e == ValueError(EmptyBankMessage))
    || (exists t :: t in bank && TopicError(bank, t) == Some(e))
  }

  lemma TotalOfOne(s: QuestionSet)
    ensures TotalQuestions([s]) == |s.questions|
  {
    assert [s][..0] == [];
  }

  lemma TotalAppend(sets: seq<QuestionSet>, s: QuestionSet)
    ensures TotalQuestions(sets + [s]) == TotalQuestions(sets) + |s.questions|
  {
    assert (sets + [s])[..|sets|] == sets;
  }

  /** What a successful `generate_unexpected(n)` holds: one set, drawn with
      `n` requested questions from a topic of the bank, and its size as the count. */
  ghost predicate UnexpectedShape(bank: Bank, n: int, g: Generation)
  {
    && g.mode == "unexpected" && |g.sets| == 1
    && g.count == TotalQuestions(g.sets)
    && g.sets[0].topic in bank
    && GeneratedFrom(bank[g.sets[0].topic], n, 1, g.sets[0].questions)
  }

  /** What a successful role-play or advanced draw holds: one non-empty set
      from a topic of the bank, keyed by `keys` and numbered by `numbers`. */
  ghost predicate KeyedShape(bank: Bank, mode: string, keys: seq<string>, numbers: seq<int>, g: Generation)
  {
    && g.mode == mode && |g.sets| == 1
    && g.count == TotalQuestions(g.sets)
    && g.sets[0].topic in bank && g.sets[0].questions != []
    && KeyedDraw(bank[g.sets[0].topic], keys, numbers, g.sets[0].questions)
  }

  /** `generate_unexpected(n)`: one set from a random topic. */
  method GenerateUnexpected(bank: Bank, n: int) returns (r: Result<Generation, Error>)
    ensures r.Failure? ==> TopicFailure(bank, r.error)
    ensures bank != map[] && SoundTopics(bank) ==> r.Success?
    ensures r.Success? ==> UnexpectedShape(bank, n, r.value)
  {
    var res := GenerateSetFromBank(bank, None, n);
    if res.Failure? {
      return Failure(res.error);
    }
    var (topic, qs) := res.value;
    TotalOfOne(QuestionSet(topic, qs));
    return Success(Generation("unexpected", |qs|, [QuestionSet(topic, qs)]));
  }

  /** Two different topics of a bank with at least two. */
  lemma TwoTopics(bank: Bank)
    requires |bank| >= 2
    ensures exists a, b :: a in bank && b in bank && a != b
  {
    var a :| a in bank.Keys;
    var rest := bank.Keys - {a};
    assert |rest| == |bank.Keys| - 1;
    var b :| b in rest;
  }

  /** What a successful survey holds: two sets of three requested questions
      from two different topics, and their total as the count. */
  ghost predicate SurveyShape(bank: Bank, g: Generation)
  {
    && g.mode == "survey" && |g.sets| == 2
    && g.count == TotalQuestions(g.sets)
    && g.sets[0].topic in bank && g.sets[1].topic in bank
    && g.sets[0].topic != g.sets[1].topic
    && GeneratedFrom(bank[g.sets[0].topic], 3, 1, g.sets[0].questions)
    && GeneratedFrom(bank[g.sets[1].topic], 3, 1, g.sets[1].questions)
  }

  /** `generate_survey()`: `random.sample(topics, 2)`, then a loop that
      builds one set per chosen topic and accumulates `total`. */
  method GenerateSurvey(bank: Bank) returns (r: Result<Generation, Error>)
    ensures |bank| < 2 ==> r == Failure(ValueError(SurveyTooFewMessage))
    ensures |bank| >= 2 && r.Failure? ==> exists t :: t in bank && TopicError(bank, t) == Some(r.error)
    ensures |bank| >= 2 && SoundTopics(bank) ==> r.Success?
    ensures r.Success? ==> SurveyShape(bank, r.value)
  {
    if |bank| < 2 {
      return Failure(ValueError(SurveyTooFewMessage));
    }
    TwoTopics(bank);
    var t1, t2 :| t1 in bank && t2 in bank && t1 != t2;
    var chosen := [t1, t2];
    var sets: seq<QuestionSet> := [];
    var total := 0;
    for i := 0 to 2
      invariant |sets| == i && total == TotalQuestions(sets)
      invariant i >= 1 ==> SurveyBlock(bank, t1, sets[0])
      invariant i >= 2 ==> SurveyBlock(bank, t2, sets[1])
    {
      var res := GenerateSetFromBank(bank, Some(chosen[i]), 3);
      if res.Failure? {
        assert chosen[i] in bank && TopicError(bank, chosen[i]) == Some(res.error);
        return Failure(res.error);
      }
      var (topic, qs) := res.value;
      TotalAppend(sets, QuestionSet(topic, qs));
      sets := sets + [QuestionSet(topic, qs)];
      total := total + |qs|;
    }
    var s1, s2 := sets[0], sets[1];
    PairOf(sets);
    SurveyAssembled(bank, s1, s2);
    return Success(Generation("survey", total, [s1, s2]));
  }

  /** One survey set: three requested questions from `topic`. */
  ghost predicate SurveyBlock(bank: Bank, topic: string, s: QuestionSet)
  {
    s.topic == topic && topic in bank && GeneratedFrom(bank[topic], 3, 1, s.questions)
  }

  lemma PairOf(sets: seq<QuestionSet>)
    requires |sets| == 2
    ensures sets == [sets[0], sets[1]]
  {
  }

  lemma SurveyAssembled(bank: Bank, s1: QuestionSet, s2: QuestionSet)
    requires SurveyBlock(bank, s1.topic, s1) && SurveyBlock(bank, s2.topic, s2) && s1.topic != s2.topic
    ensures SurveyShape(bank, Generation("survey", TotalQuestions([s1, s2]), [s1, s2]))
  {
  }

  /** `generate_roleplay()`: one question for each of the keys 11/12/13
      that has questions, numbered 1/2/3 by the key's position. */
  method GenerateRoleplay(bank: Bank) returns (r: Result<Generation, Error>)
    ensures r.Failure? ==> KeyedFailure(bank, RoleplayKeys, "No questions found for topic: ", r.error)
    ensures bank != map[] && KeyedSound(bank, RoleplayKeys) ==> r.Success?
    ensures r.Success? ==> KeyedShape(bank, "roleplay", RoleplayKeys, [1, 2, 3], r.value)
  {
    var res := KeyedSet(bank, RoleplayKeys, [1, 2, 3], "No questions found for topic: ");
    if res.Failure? {
      return Failure(res.error);
    }
    TotalOfOne(res.value);
    return Success(Generation("roleplay", |res.value.questions|, [res.value]));
  }

  /** `generate_advanced()`: one question for each of the keys 14/15 that
      has questions, numbered 1/2 by the key's position. */
  method GenerateAdvanced(bank: Bank) returns (r: Result<Generation, Error>)
    ensures r.Failure? ==> KeyedFailure(bank, AdvancedKeys, "No advanced questions for topic: ", r.error)
    ensures bank != map[] && KeyedSound(bank, AdvancedKeys) ==> r.Success?
    ensures r.Success? ==> KeyedShape(bank, "advanced", AdvancedKeys, [1, 2], r.value)
  {
    var res := KeyedSet(bank, AdvancedKeys, [1, 2], "No advanced questions for topic: ");
    if res.Failure? {
      return Failure(res.error);
    }
    TotalOfOne(res.value);
    return Success(Generation("advanced", |res.value.questions|, [res.value]));
  }

  /** `for i, q in enumerate(qs, start=start): q["number"] = i`, in place. */
  method Renumber(a: array<Question>, start: int)
    modifies a
    ensures a[..] == Renumbered(old(a[..]), start)
  {
    for i := 0 to a.Length
      invariant forall j :: 0 <= j < i ==> a[j] == old(a[j]).(number := start + j)
      invariant forall j :: i <= j < a.Length ==> a[j] == old(a[j])
    {
      a[i] := a[i].(number := start + i);
    }
  }

  /** A generated block renumbered from `start`: the list is put in an
      array, renumbered in place, and read back. */
  method RenumberBlock(qs: seq<Question>, start: int) returns (r: seq<Question>)
    ensures r == Renumbered(qs, start)
  {
    var a := new Question[|qs|](j requires 0 <= j < |qs| => qs[j]);
    assert a[..] == qs;
    Renumber(a, start);
    r := a[..];
  }

  /** Every bank can serve the mock test: two sound survey topics, a sound
      unexpected bank, and role-play / advanced topics with some key each. */
  ghost predicate Healthy(banks: Banks)
  {
    && |banks.basic| >= 2 && SoundTopics(banks.basic)
    && banks.unexpected != map[] && SoundTopics(banks.unexpected)
    && banks.roleplay != map[] && KeyedSound(banks.roleplay, RoleplayKeys)
    && banks.advanced != map[] && KeyedSound(banks.advanced, AdvancedKeys)
  }

  /** The exceptions `generate_full15()` can raise. */
  ghost predicate Full15Failure(banks: Banks, e: Error)
  {
    || (|banks.basic| < 2 && e == ValueError(SampleMessage))
    || (exists t :: t in banks.basic && TopicError(banks.basic, t) == Some(e))
    || TopicFailure(banks.unexpected, e)
    || KeyedFailure(banks.roleplay, RoleplayKeys, "No roleplay questions for topic: ", e)
    || KeyedFailure(banks.advanced, AdvancedKeys, "No advanced questions for topic: ", e)
  }

  /** A block drawn by `generate_set_from_bank(bank, topic, 3)` from one of
      the bank's topics and numbered from `start`. */
  ghost predicate DrawnFrom(bank: Bank, start: int, s: QuestionSet)
  {
    s.topic in bank && GeneratedFrom(bank[s.topic], 3, start, s.questions)
  }

  /** A non-empty keyed block of one of the bank's topics, in the given slots. */
  ghost predicate KeyedFrom(bank: Bank, keys: seq<string>, numbers: seq<int>, s: QuestionSet)
  {
    s.topic in bank && s.questions != [] && KeyedDraw(bank[s.topic], keys, numbers, s.questions)
  }

  /** What a successful mock test holds: the intro as Q1, survey blocks
      numbered from 2 and from 5 on two different topics, an unexpected
      block from 8, role-play slots 11/12/13, advanced slots 14/15, and the
      total over the six sets as the count. */
  ghost predicate Full15Shape(banks: Banks, g: Generation)
  {
    && g.mode == "full15" && |g.sets| == 6
    && g.count == TotalQuestions(g.sets)
    && g.sets[0] == IntroSet()
    && DrawnFrom(banks.basic, 2, g.sets[1])
    && DrawnFrom(banks.basic, 5, g.sets[2])
    && g.sets[1].topic != g.sets[2].topic
    && DrawnFrom(banks.unexpected, 8, g.sets[3])
    && KeyedFrom(banks.roleplay, RoleplayKeys, [11, 12, 13], g.sets[4])
    && KeyedFrom(banks.advanced, AdvancedKeys, [14, 15], g.sets[5])
  }

  /** The six sets, each as its step produced it, make a mock test. */
  lemma Full15Assembled(banks: Banks, survey1: QuestionSet, survey2: QuestionSet, unexpected: QuestionSet,
                        roleplay: QuestionSet, advanced: QuestionSet)
    requires DrawnFrom(banks.basic, 2, survey1) && DrawnFrom(banks.basic, 5, survey2)
    requires survey1.topic != survey2.topic
    requires DrawnFrom(banks.unexpected, 8, unexpected)
    requires KeyedFrom(banks.roleplay, RoleplayKeys, [11, 12, 13], roleplay)
    requires KeyedFrom(banks.advanced, AdvancedKeys, [14, 15], advanced)
    ensures var sets := [IntroSet(), survey1, survey2, unexpected, roleplay, advanced];
            Full15Shape(banks, Generation("full15", TotalQuestions(sets), sets))
  {
    SixOf(IntroSet(), survey1, survey2, unexpected, roleplay, advanced);
  }

  lemma SixOf<T>(a: T, b: T, c: T, d: T, e: T, f: T)
    ensures var s := [a, b, c, d, e, f];
            |s| == 6 && s[0] == a && s[1] == b && s[2] == c && s[3] == d && s[4] == e && s[5] == f
  {
  }

  /** One mock-test block from `generate_set_from_bank(bank, topic, 3)`,
      renumbered in place from `start`. */
  method RenumberedSet(bank: Bank, topic: Option<string>, start: int) returns (r: Result<QuestionSet, Error>)
    ensures topic.Some? ==> (r.Failure? <==> TopicError(bank, topic.value).Some?)
    ensures topic.Some? && r.Failure? ==> Some(r.error) == TopicError(bank, topic.value)
    ensures topic.None? && r.Failure? ==> TopicFailure(bank, r.error)
    ensures topic.None? && bank != map[] && SoundTopics(bank) ==> r.Success?
    ensures r.Success? ==> r.value.topic in bank && (topic.Some? ==> r.value.topic == topic.value)
                           && GeneratedFrom(bank[r.value.topic], 3, start, r.value.questions)
  {
    var res := GenerateSetFromBank(bank, topic, 3);
    if res.Failure? {
      return Failure(res.error);
    }
    var qs := RenumberBlock(res.value.1, start);
    RenumberedGenerated(bank[res.value.0], 3, 1, res.value.1, start);
    return Success(QuestionSet(res.value.0, qs));
  }

  /** `generate_full15()`. */
  method GenerateFull15(banks: Banks) returns (r: Result<Generation, Error>)
    ensures r.Failure? ==> Full15Failure(banks, r.error)
    ensures |banks.basic| < 2 ==> r == Failure(ValueError(SampleMessage))
    ensures Healthy(banks) ==> r.Success?
    ensures r.Success? ==> Full15Shape(banks, r.value)
  {
    if |banks.basic| < 2 {
      return Failure(ValueError(SampleMessage));
    }
    TwoTopics(banks.basic);
    var s1, s2 :| s1 in banks.basic && s2 in banks.basic && s1 != s2;
    var survey1 := RenumberedSet(banks.basic, Some(s1), 2);
    if survey1.Failure? {
      return Failure(survey1.error);
    }
    var survey2 := RenumberedSet(banks.basic, Some(s2), 5);
    if survey2.Failure? {
      return Failure(survey2.error);
    }
    var unexpected := RenumberedSet(banks.unexpected, None, 8);
    if unexpected.Failure? {
      return Failure(unexpected.error);
    }
    var roleplay := KeyedSet(banks.roleplay, RoleplayKeys, [11, 12, 13], "No roleplay questions for topic: ");
    if roleplay.Failure? {
      return Failure(roleplay.error);
    }
    var advanced := KeyedSet(banks.advanced, AdvancedKeys, [14, 15], "No advanced questions for topic: ");
    if advanced.Failure? {
      return Failure(advanced.error);
    }
    Full15Assembled(banks, survey1.value, survey2.value, unexpected.value, roleplay.value, advanced.value);
    var sets := [IntroSet(), survey1.value, survey2.value, unexpected.value, roleplay.value, advanced.value];
    return Success(Generation("full15", TotalQuestions(sets), sets));
  }
}
