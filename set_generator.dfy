/** `pick_random_topic` and `generate_set_from_bank`: one topic's question
    list under RULE_CAPS. Python's `random.choice` is a nondeterministic
    choice (`:|`); every property below holds whatever is chosen. */
module SetGenerator {
  import opened Results
  import opened QuestionBank

  const EmptyBankMessage := "QUESTION_BANK is empty."

  /** `pick_random_topic`: a ValueError for an empty bank, else any of its topics. */
  method PickRandomTopic(bank: Bank) returns (r: Result<string, Error>)
    ensures bank == map[] <==> r.Failure?
    ensures r.Failure? ==> r.error == ValueError(EmptyBankMessage)
    ensures r.Success? ==> r.value in bank
  {
    if bank.Keys == {} {
      return Failure(ValueError(EmptyBankMessage));
    }
    var topic :| topic in bank.Keys;
    return Success(topic);
  }

  /** The first position of `x` in `s`. */
  function IndexOf(s: seq<string>, x: string): (i: nat)
    requires x in s
    ensures i < |s| && s[i] == x && x !in s[..i]
  {
    if s[0] == x then 0 else 1 + IndexOf(s[1..], x)
  }

  /** Python's `list.remove(x)`: drops the first occurrence of `x`. */
  function RemoveFirst(s: seq<string>, x: string): (r: seq<string>)
    requires x in s
    ensures |r| == |s| - 1
    ensures multiset(r) == multiset(s) - multiset{x}
  {
    var i := IndexOf(s, x);
    assert s == s[..i] + [x] + s[i + 1..];
    s[..i] + s[i + 1..]
  }

  /** Why `generate_set_from_bank` refuses a topic: missing or empty topic
      data is a KeyError, a topic without descriptions a ValueError. */
  function TopicError(bank: Bank, topic: string): Option<Error>
  {
    if topic !in bank || bank[topic] == map[] then Some(KeyError("Topic not found: " + topic))
    else if Pool(bank[topic], Description) == [] then Some(ValueError("No 'description' questions for topic: " + topic))
    else None
  }

  ghost predicate SoundTopics(bank: Bank)
  {
    forall t :: t in bank ==> TopicError(bank, t).None?
  }

  /** `generate_set_from_bank(bank, topic, n)` */
  method GenerateSetFromBank(bank: Bank, topic: Option<string>, n: int)
    returns (r: Result<(string, seq<Question>), Error>)
    ensures topic.None? && bank == map[] ==> r == Failure(ValueError(EmptyBankMessage))
    ensures topic.Some? ==> (r.Failure? <==> TopicError(bank, topic.value).Some?)
    ensures topic.Some? && r.Failure? ==> Some(r.error) == TopicError(bank, topic.value)
    ensures topic.None? && bank != map[] && r.Failure? ==>
              exists t :: t in bank && TopicError(bank, t) == Some(r.error)
    ensures topic.None? && bank != map[] && SoundTopics(bank) ==> r.Success?
    ensures r.Success? ==> r.value.0 in bank && (topic.Some? ==> r.value.0 == topic.value)
    ensures r.Success? ==> GeneratedFrom(bank[r.value.0], n, 1, r.value.1)
  {
    var t: string;
    if topic.None? {
      var picked := PickRandomTopic(bank);
      if picked.Failure? {
        return Failure(picked.error);
      }
      t := picked.value;
    } else {
      t := topic.value;
    }
    var err := TopicError(bank, t);
    if err.Some? {
      return Failure(err.value);
    }
    var questions := DrawQuestions(bank[t], n);
    return Success((t, questions));
  }

  /** The body of `generate_set_from_bank` once the topic is known to be
      sound: one description, then the capped loop over `idx` in 2..n. */
  method DrawQuestions(data: TopicData, n: int) returns (questions: seq<Question>)
    requires Pool(data, Description) != []
    ensures GeneratedFrom(data, n, 1, questions)
  {
    assert Pool(data, Description)[0] in Pool(data, Description);
    var q1 :| q1 in Pool(data, Description);
    questions := [Question(1, Description, q1)];
    var used := map[Routine := 0, Comparison := 0, Experience := 0];
    var pools := map[Routine := Pool(data, Routine), Comparison := Pool(data, Comparison),
                     Experience := Pool(data, Experience)];
    StartDraw(data, q1, questions, used, pools);
    var idx := 2;
    while idx <= n
      invariant 2 <= idx <= Max(n + 1, 2)
      invariant DrawState(data, questions, used, pools, idx)
      invariant questions[0] == Question(1, Description, q1)
    {
      var candidates := Candidates(used, pools);
      if candidates == [] {
        FinishDraw(data, n, q1, questions, used, pools, idx);
        return;
      }
      assert candidates[0] in candidates;
      var k :| k in candidates;
      assert pools[k][0] in pools[k];
      var qtext :| qtext in pools[k];
      DrawStep(data, questions, used, pools, idx, k, qtext);
      pools := pools[k := RemoveFirst(pools[k], qtext)];
      used := used[k := used[k] + 1];
      questions := questions + [Question(idx, k, qtext)];
      idx := idx + 1;
    }
    FinishDraw(data, n, q1, questions, used, pools, idx);
  }

  /** A capped type that can still be drawn: under its cap, pool not empty. */
  predicate Open(used: map<Kind, int>, pools: map<Kind, seq<string>>, k: Kind)
  {
    Capped(k) && k in used && k in pools && used[k] < Cap(k) && pools[k] != []
  }

  /** The `candidates` list comprehension over RULE_CAPS, in its order. */
  function Candidates(used: map<Kind, int>, pools: map<Kind, seq<string>>): (c: seq<Kind>)
    ensures forall k :: k in c <==> Open(used, pools, k)
    ensures forall i :: 0 <= i < |c| ==> Capped(c[i])
  {
    (if Open(used, pools, Routine) then [Routine] else [])
    + (if Open(used, pools, Comparison) then [Comparison] else [])
    + (if Open(used, pools, Experience) then [Experience] else [])
  }

  /** The state before the loop's first iteration. */
  lemma StartDraw(data: TopicData, q1: string, questions: seq<Question>,
                  used: map<Kind, int>, pools: map<Kind, seq<string>>)
    requires questions == [Question(1, Description, q1)]
    requires used == map[Routine := 0, Comparison := 0, Experience := 0]
    requires pools == map[Routine := Pool(data, Routine), Comparison := Pool(data, Comparison),
                          Experience := Pool(data, Experience)]
    ensures DrawState(data, questions, used, pools, 2)
  {
    assert questions[..0] == [];
    assert Texts(questions, Routine) == [] && Texts(questions, Comparison) == []
        && Texts(questions, Experience) == [];
  }

  /** When the loop ends, by reaching `n` or by running out of candidates,
      the questions satisfy `GeneratedFrom`. */
  lemma FinishDraw(data: TopicData, n: int, q1: string, questions: seq<Question>,
                   used: map<Kind, int>, pools: map<Kind, seq<string>>, idx: int)
    requires 2 <= idx <= Max(n + 1, 2)
    requires DrawState(data, questions, used, pools, idx)
    requires questions[0] == Question(1, Description, q1) && q1 in Pool(data, Description)
    requires idx > n || Candidates(used, pools) == []
    ensures GeneratedFrom(data, n, 1, questions)
  {
    KindWithinAvail(data, questions, pools, used, Routine);
    KindWithinAvail(data, questions, pools, used, Comparison);
    KindWithinAvail(data, questions, pools, used, Experience);
    var total := used[Routine] + used[Comparison] + used[Experience];
    assert total <= Capacity(data);
    if idx <= n {
      assert !Open(used, pools, Routine) && !Open(used, pools, Comparison) && !Open(used, pools, Experience);
      assert total == Capacity(data);
    }
    assert |questions| == 1 + Min(Max(n - 1, 0), Capacity(data));
  }

  /** The loop state of `generate_set_from_bank` before iteration `idx`:
      `questions` numbered 1.., only capped types after the first, and for
      each capped type `KindState`. */
  ghost predicate DrawState(data: TopicData, questions: seq<Question>, used: map<Kind, int>,
                            pools: map<Kind, seq<string>>, idx: int)
  {
    && Numbered(questions, idx)
    && KindState(data, questions, used, pools, Routine)
    && KindState(data, questions, used, pools, Comparison)
    && KindState(data, questions, used, pools, Experience)
    && used[Routine] + used[Comparison] + used[Experience] == idx - 2
  }

  /** `questions` holds `idx - 1` questions numbered 1.., capped types after the first. */
  ghost predicate Numbered(questions: seq<Question>, idx: int)
  {
    && |questions| == idx - 1
    && (forall i :: 0 <= i < |questions| ==> questions[i].number == 1 + i)
    && (forall i :: 1 <= i < |questions| ==> Capped(questions[i].kind))
  }

  lemma NumberedStep(questions: seq<Question>, idx: int, k: Kind, qtext: string)
    requires Numbered(questions, idx) && idx >= 2 && Capped(k)
    ensures Numbered(questions + [Question(idx, k, qtext)], idx + 1)
  {
  }

  /** `used[k]` counts the questions of type `k` and stays within its cap, and
      `pools[k]` has lost exactly the texts drawn for `k`. */
  ghost predicate KindState(data: TopicData, questions: seq<Question>, used: map<Kind, int>,
                            pools: map<Kind, seq<string>>, k: Kind)
  {
    && Capped(k) && k in used && k in pools
    && used[k] == Count(questions, k) <= Cap(k)
    && multiset(pools[k]) + multiset(Texts(questions, k)) == multiset(Pool(data, k))
  }

  lemma TextsAppend(qs: seq<Question>, q: Question, kind: Kind)
    ensures Texts(qs + [q], kind) == Texts(qs, kind) + (if q.kind == kind then [q.text] else [])
  {
    assert (qs + [q])[..|qs|] == qs;
  }

  /** One iteration of the loop keeps `DrawState`. */
  lemma DrawStep(data: TopicData, questions: seq<Question>, used: map<Kind, int>,
                 pools: map<Kind, seq<string>>, idx: int, k: Kind, qtext: string)
    requires DrawState(data, questions, used, pools, idx)
    requires Capped(k) && used[k] < Cap(k) && qtext in pools[k]
    ensures DrawState(data, questions + [Question(idx, k, qtext)], used[k := used[k] + 1],
                      pools[k := RemoveFirst(pools[k], qtext)], idx + 1)
  {
    KindStep(data, questions, used, pools, idx, k, qtext, Routine);
    KindStep(data, questions, used, pools, idx, k, qtext, Comparison);
    KindStep(data, questions, used, pools, idx, k, qtext, Experience);
    NumberedStep(questions, idx, k, qtext);
    var used' := used[k := used[k] + 1];
    assert used'[Routine] + used'[Comparison] + used'[Experience] == idx - 1 by {
      assert k == Routine || k == Comparison || k == Experience;
    }
  }

  lemma KindStep(data: TopicData, questions: seq<Question>, used: map<Kind, int>,
                 pools: map<Kind, seq<string>>, idx: int, k: Kind, qtext: string, j: Kind)
    requires KindState(data, questions, used, pools, j)
    requires Capped(k) && k in used && k in pools && used[k] < Cap(k) && qtext in pools[k]
    ensures KindState(data, questions + [Question(idx, k, qtext)], used[k := used[k] + 1],
                      pools[k := RemoveFirst(pools[k], qtext)], j)
  {
    var q := Question(idx, k, qtext);
    TextsAppend(questions, q, j);
    if j == k {
      BagStep(pools[k], RemoveFirst(pools[k], qtext), Texts(questions, k), qtext, multiset(Pool(data, k)));
    } else {
      assert Texts(questions + [q], j) == Texts(questions, j);
    }
  }

  /** Moving one occurrence of `x` from the pool to the drawn texts keeps
      their union. */
  lemma BagStep(pool: seq<string>, pool': seq<string>, drawn: seq<string>, x: string, all: multiset<string>)
    requires multiset(pool) + multiset(drawn) == all
    requires x in pool && multiset(pool') == multiset(pool) - multiset{x}
    ensures multiset(pool') + multiset(drawn + [x]) == all
  {
    assert x in multiset(pool);
    assert multiset(drawn + [x]) == multiset(drawn) + multiset{x};
  }

  /** Each type's draw count is bounded by what its cap and its pool allow,
      a type with no candidate left has drawn all it can, and the drawn
      texts are a sub-multiset of the type's pool. */
  lemma KindWithinAvail(data: TopicData, qs: seq<Question>, pools: map<Kind, seq<string>>, used: map<Kind, int>, k: Kind)
    requires KindState(data, qs, used, pools, k)
    ensures used[k] <= Avail(data, k)
    ensures used[k] >= Cap(k) || pools[k] == [] ==> used[k] == Avail(data, k)
    ensures KindDrawn(data, qs, k)
  {
    assert |multiset(pools[k])| + |multiset(Texts(qs, k))| == |multiset(Pool(data, k))|;
  }

  /** The text of each question occurs among the texts of its own type. */
  lemma {:induction false} TextInTexts(qs: seq<Question>, i: int)
    requires 0 <= i < |qs|
    ensures qs[i].text in Texts(qs, qs[i].kind)
    decreases |qs|
  {
    var m := |qs| - 1;
    if i < m {
      TextInTexts(qs[..m], i);
    }
  }

  /** Every question of a generated set, the description included, was
      drawn from its own type's pool in the topic's data. */
  lemma DrawnFromPools(data: TopicData, n: int, first: int, qs: seq<Question>)
    requires GeneratedFrom(data, n, first, qs)
    ensures forall i :: 0 <= i < |qs| ==> qs[i].text in Pool(data, qs[i].kind)
  {
    forall i | 0 <= i < |qs|
      ensures qs[i].text in Pool(data, qs[i].kind)
    {
      if i > 0 {
        TextInTexts(qs, i);
        var k := qs[i].kind;
        assert KindDrawn(data, qs, k) by {
          assert k == Routine || k == Comparison || k == Experience;
        }
        assert qs[i].text in multiset(Texts(qs, k));
      }
    }
  }

  /** Two questions of the same type with the same text make that text
      occur twice among the type's texts. */
  lemma {:induction false} RepeatCountsTwice(qs: seq<Question>, i: int, j: int)
    requires 0 <= i < j < |qs| && qs[i].kind == qs[j].kind
    ensures qs[i].text == qs[j].text ==> multiset(Texts(qs, qs[i].kind))[qs[i].text] >= 2
    decreases |qs|
  {
    var m := |qs| - 1;
    var k, x := qs[i].kind, qs[i].text;
    assert Texts(qs, k) == Texts(qs[..m], k) + (if qs[m].kind == k then [qs[m].text] else []);
    if j < m {
      RepeatCountsTwice(qs[..m], i, j);
    } else {
      TextInTexts(qs[..m], i);
      assert multiset(Texts(qs[..m], k))[x] >= 1;
    }
  }

  predicate NoDuplicates(s: seq<string>)
  {
    forall a, b :: 0 <= a < b < |s| ==> s[a] != s[b]
  }

  /** A list without duplicates holds each text at most once. */
  lemma {:induction false} DistinctCountsOnce(s: seq<string>, x: string)
    requires NoDuplicates(s)
    ensures multiset(s)[x] <= 1
    decreases |s|
  {
    if s != [] {
      var m := |s| - 1;
      assert s == s[..m] + [s[m]];
      DistinctCountsOnce(s[..m], x);
      if s[m] == x {
        assert x !in s[..m];
      }
    }
  }

  /** `pools[t].remove(qtext)`: a type whose pool has no duplicate texts
      never yields the same text twice in one set. */
  lemma NoRepeatedDraw(data: TopicData, n: int, first: int, qs: seq<Question>, i: int, j: int)
    requires GeneratedFrom(data, n, first, qs)
    requires 1 <= i < j < |qs| && qs[i].kind == qs[j].kind
    requires NoDuplicates(Pool(data, qs[i].kind))
    ensures qs[i].text != qs[j].text
  {
    var k, x := qs[i].kind, qs[i].text;
    RepeatCountsTwice(qs, i, j);
    DistinctCountsOnce(Pool(data, k), x);
    assert KindDrawn(data, qs, k) by {
      assert k == Routine || k == Comparison || k == Experience;
    }
    assert multiset(Texts(qs, k))[x] <= 1;
  }

  /** A set holds between one and five questions, never more than `n` when
      `n` is at least one, exactly one when `n <= 1`, and the full
      `1 + Capacity` when `n` leaves room for it. */
  lemma GeneratedSize(data: TopicData, n: int, first: int, qs: seq<Question>)
    requires GeneratedFrom(data, n, first, qs)
    ensures 1 <= |qs| <= 5 && |qs| <= Max(n, 1)
    ensures n <= 1 ==> |qs| == 1
    ensures n > Capacity(data) ==> |qs| == 1 + Capacity(data)
    ensures qs[0].number == first && qs[|qs| - 1].number == first + |qs| - 1
  {
  }

  /** `for i, q in enumerate(qs, start=s): q["number"] = i` on values. */
  function Renumbered(qs: seq<Question>, start: int): (r: seq<Question>)
    ensures |r| == |qs|
    ensures forall i :: 0 <= i < |qs| ==> r[i] == qs[i].(number := start + i)
  {
    seq(|qs|, i requires 0 <= i < |qs| => qs[i].(number := start + i))
  }

  /** Renumbering changes no type and no text. */
  lemma {:induction false} TextsRenumbered(qs: seq<Question>, start: int, k: Kind)
    ensures Texts(Renumbered(qs, start), k) == Texts(qs, k)
    decreases |qs|
  {
    if qs != [] {
      var m := |qs| - 1;
      assert Renumbered(qs, start)[..m] == Renumbered(qs[..m], start);
      TextsRenumbered(qs[..m], start, k);
    }
  }

  /** The mock test's renumbered survey and unexpected blocks still satisfy
      everything `generate_set_from_bank` promised, numbered from `start`. */
  lemma RenumberedGenerated(data: TopicData, n: int, first: int, qs: seq<Question>, start: int)
    requires GeneratedFrom(data, n, first, qs)
    ensures GeneratedFrom(data, n, start, Renumbered(qs, start))
  {
    TextsRenumbered(qs, start, Routine);
    TextsRenumbered(qs, start, Comparison);
    TextsRenumbered(qs, start, Experience);
  }
}
