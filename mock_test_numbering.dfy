/** The numbering of the 15-question mock test: question numbers strictly
    increase across its six sets and stay within 1..15, and with every pool
    full enough they are exactly 1..15 (server/opic_problems_router.py:129-180). */
module MockTestNumbering {
  import opened Results
  import opened QuestionBank
  import opened SetGenerator
  import opened ModeGenerators

  /** `s` is strictly increasing and its values lie in `lo..hi`. */
  ghost predicate Block(s: seq<int>, lo: int, hi: int)
  {
    Increasing(s) && forall i :: 0 <= i < |s| ==> lo <= s[i] <= hi
  }

  /** Two blocks, the second starting above the first, concatenate into one. */
  lemma ConcatBlocks(a: seq<int>, b: seq<int>, lo: int, mid: int, hi: int)
    requires lo <= mid <= hi + 1
    requires Block(a, lo, mid - 1) && Block(b, mid, hi)
    ensures Block(a + b, lo, hi)
  {
    var s := a + b;
    forall i, j | 0 <= i < j < |s|
      ensures s[i] < s[j]
    {
      if j < |a| {
        assert s[i] == a[i] && s[j] == a[j];
      } else if i >= |a| {
        assert s[i] == b[i - |a|] && s[j] == b[j - |a|];
      }
    }
  }

  /** Between positions `i <= j` an increasing sequence grows by at least `j - i`. */
  lemma {:induction false} IncreasingGap(s: seq<int>, i: int, j: int)
    requires Increasing(s) && 0 <= i <= j < |s|
    ensures s[j] >= s[i] + (j - i)
    decreases j - i
  {
    if i < j {
      IncreasingGap(s, i, j - 1);
    }
  }

  /** A block holds at most `hi - lo + 1` values; one that holds exactly
      that many is `lo, lo + 1, ..., hi`. */
  lemma BlockLength(s: seq<int>, lo: int, hi: int)
    requires Block(s, lo, hi)
    ensures |s| <= Max(hi - lo + 1, 0)
    ensures |s| == hi - lo + 1 ==> forall i :: 0 <= i < |s| ==> s[i] == lo + i
  {
    if s != [] {
      IncreasingGap(s, 0, |s| - 1);
      forall i | 0 <= i < |s|
        ensures s[i] >= lo + i && s[i] <= hi - (|s| - 1 - i)
      {
        IncreasingGap(s, 0, i);
        IncreasingGap(s, i, |s| - 1);
      }
    }
  }

  /** A block drawn by `generate_set_from_bank(bank, topic, 3)` and numbered
      from `first` covers `first .. first + 2`. */
  lemma GeneratedBlock(data: TopicData, first: int, qs: seq<Question>)
    requires GeneratedFrom(data, 3, first, qs)
    ensures Block(Numbers(qs), first, first + 2)
    ensures Capacity(data) >= 2 ==> |qs| == 3
  {
  }

  /** The keyed slots numbered by increasing `numbers` from `lo..hi` form a block. */
  lemma KeyedBlock(block: TopicData, keys: seq<string>, numbers: seq<int>, qs: seq<Question>, lo: int, hi: int)
    requires KeyedDraw(block, keys, numbers, qs)
    requires Block(numbers, lo, hi)
    ensures Block(Numbers(qs), lo, hi)
  {
    SlotOrder(block, keys, numbers);
    var ns := Numbers(qs);
    forall i | 0 <= i < |ns|
      ensures lo <= ns[i] <= hi
    {
      var k :| 0 <= k < |numbers| && numbers[k] == Slots(block, keys, numbers)[i].0;
    }
  }

  lemma AllNumbersStep(sets: seq<QuestionSet>, i: int)
    requires 0 < i <= |sets|
    ensures AllNumbers(sets[..i]) == AllNumbers(sets[..i - 1]) + Numbers(sets[i - 1].questions)
  {
    assert sets[..i][..i - 1] == sets[..i - 1];
  }

  lemma TotalStep(sets: seq<QuestionSet>, i: int)
    requires 0 < i <= |sets|
    ensures TotalQuestions(sets[..i]) == TotalQuestions(sets[..i - 1]) + |sets[i - 1].questions|
  {
    assert sets[..i][..i - 1] == sets[..i - 1];
  }

  /** Each of the mock test's six sets is numbered within its own range:
      1, 2..4, 5..7, 8..10, 11..13 and 14..15. */
  lemma Full15Blocks(banks: Banks, g: Generation)
    requires Full15Shape(banks, g)
    ensures Block(Numbers(g.sets[0].questions), 1, 1)
    ensures Block(Numbers(g.sets[1].questions), 2, 4)
    ensures Block(Numbers(g.sets[2].questions), 5, 7)
    ensures Block(Numbers(g.sets[3].questions), 8, 10)
    ensures Block(Numbers(g.sets[4].questions), 11, 13)
    ensures Block(Numbers(g.sets[5].questions), 14, 15)
  {
    SurveyBlocks(banks, g);
    LaterBlocks(banks, g);
  }

  lemma SurveyBlocks(banks: Banks, g: Generation)
    requires Full15Shape(banks, g)
    ensures Block(Numbers(g.sets[0].questions), 1, 1)
    ensures Block(Numbers(g.sets[1].questions), 2, 4)
    ensures Block(Numbers(g.sets[2].questions), 5, 7)
  {
    IntroBlock();
    GeneratedBlock(banks.basic[g.sets[1].topic], 2, g.sets[1].questions);
    GeneratedBlock(banks.basic[g.sets[2].topic], 5, g.sets[2].questions);
  }

  lemma LaterBlocks(banks: Banks, g: Generation)
    requires Full15Shape(banks, g)
    ensures Block(Numbers(g.sets[3].questions), 8, 10)
    ensures Block(Numbers(g.sets[4].questions), 11, 13)
    ensures Block(Numbers(g.sets[5].questions), 14, 15)
  {
    GeneratedBlock(banks.unexpected[g.sets[3].topic], 8, g.sets[3].questions);
    RoleplayBlock(banks.roleplay[g.sets[4].topic], g.sets[4].questions);
    AdvancedBlock(banks.advanced[g.sets[5].topic], g.sets[5].questions);
  }

  lemma IntroBlock()
    ensures Block(Numbers(IntroSet().questions), 1, 1)
  {
    assert Numbers(IntroSet().questions) == [1];
  }

  lemma RoleplayBlock(block: TopicData, qs: seq<Question>)
    requires KeyedDraw(block, RoleplayKeys, [11, 12, 13], qs)
    ensures Block(Numbers(qs), 11, 13)
  {
    SlotNumbersBlock();
    KeyedBlock(block, RoleplayKeys, [11, 12, 13], qs, 11, 13);
  }

  lemma AdvancedBlock(block: TopicData, qs: seq<Question>)
    requires KeyedDraw(block, AdvancedKeys, [14, 15], qs)
    ensures Block(Numbers(qs), 14, 15)
  {
    SlotNumbersBlock();
    KeyedBlock(block, AdvancedKeys, [14, 15], qs, 14, 15);
  }

  lemma SlotNumbersBlock()
    ensures Block([11, 12, 13], 11, 13) && Block([14, 15], 14, 15)
  {
  }

  /** Six blocks in consecutive ranges make one block over 1..15. */
  lemma ChainSix(sets: seq<QuestionSet>)
    requires |sets| == 6
    requires Block(Numbers(sets[0].questions), 1, 1)
    requires Block(Numbers(sets[1].questions), 2, 4)
    requires Block(Numbers(sets[2].questions), 5, 7)
    requires Block(Numbers(sets[3].questions), 8, 10)
    requires Block(Numbers(sets[4].questions), 11, 13)
    requires Block(Numbers(sets[5].questions), 14, 15)
    ensures Block(AllNumbers(sets), 1, 15)
  {
    assert sets[..0] == [];
    AllNumbersStep(sets, 1);
    AllNumbersStep(sets, 2);
    ConcatBlocks(AllNumbers(sets[..1]), Numbers(sets[1].questions), 1, 2, 4);
    AllNumbersStep(sets, 3);
    ConcatBlocks(AllNumbers(sets[..2]), Numbers(sets[2].questions), 1, 5, 7);
    AllNumbersStep(sets, 4);
    ConcatBlocks(AllNumbers(sets[..3]), Numbers(sets[3].questions), 1, 8, 10);
    AllNumbersStep(sets, 5);
    ConcatBlocks(AllNumbers(sets[..4]), Numbers(sets[4].questions), 1, 11, 13);
    AllNumbersStep(sets, 6);
    ConcatBlocks(AllNumbers(sets[..5]), Numbers(sets[5].questions), 1, 14, 15);
    assert sets[..6] == sets;
  }

  /** The mock test's numbers are strictly increasing, all within 1..15,
      with Q1 first, and `count` is how many there are: at most 15. */
  lemma Full15Numbers(banks: Banks, g: Generation)
    requires Full15Shape(banks, g)
    ensures Block(AllNumbers(g.sets), 1, 15)
    ensures g.count == |AllNumbers(g.sets)| <= 15
  {
    Full15Blocks(banks, g);
    ChainSix(g.sets);
    AllNumbersCount(g.sets);
    BlockLength(AllNumbers(g.sets), 1, 15);
  }

  /** Every key of `keys` has questions in the block. */
  ghost predicate AllKeys(block: TopicData, keys: seq<string>)
  {
    forall i :: 0 <= i < |keys| ==> Lookup(block, keys[i]) != []
  }

  /** Banks that can always fill every slot of the mock test: each survey and
      unexpected topic has room for two questions after the description,
      and each role-play / advanced topic has all of its keys. */
  ghost predicate FullBanks(banks: Banks)
  {
    && (forall t :: t in banks.basic ==> Capacity(banks.basic[t]) >= 2)
    && (forall t :: t in banks.unexpected ==> Capacity(banks.unexpected[t]) >= 2)
    && (forall t :: t in banks.roleplay ==> AllKeys(banks.roleplay[t], RoleplayKeys))
    && (forall t :: t in banks.advanced ==> AllKeys(banks.advanced[t], AdvancedKeys))
  }

  /** With full banks every set of the mock test is as long as its range. */
  lemma Full15Sizes(banks: Banks, g: Generation)
    requires Full15Shape(banks, g) && FullBanks(banks)
    ensures |g.sets[0].questions| == 1
    ensures |g.sets[1].questions| == 3 && |g.sets[2].questions| == 3 && |g.sets[3].questions| == 3
    ensures |g.sets[4].questions| == 3 && |g.sets[5].questions| == 2
  {
    var sets := g.sets;
    GeneratedBlock(banks.basic[sets[1].topic], 2, sets[1].questions);
    GeneratedBlock(banks.basic[sets[2].topic], 5, sets[2].questions);
    GeneratedBlock(banks.unexpected[sets[3].topic], 8, sets[3].questions);
    SlotsFull(banks.roleplay[sets[4].topic], RoleplayKeys, [11, 12, 13]);
    SlotsFull(banks.advanced[sets[5].topic], AdvancedKeys, [14, 15]);
  }

  lemma CountSix(sets: seq<QuestionSet>)
    requires |sets| == 6
    ensures |AllNumbers(sets)| == |sets[0].questions| + |sets[1].questions| + |sets[2].questions|
                                 + |sets[3].questions| + |sets[4].questions| + |sets[5].questions|
  {
    assert sets[..0] == [];
    AllNumbersStep(sets, 1);
    AllNumbersStep(sets, 2);
    AllNumbersStep(sets, 3);
    AllNumbersStep(sets, 4);
    AllNumbersStep(sets, 5);
    AllNumbersStep(sets, 6);
    assert sets[..6] == sets;
  }

  /** With full banks the mock test has exactly 15 questions numbered 1..15. */
  lemma Full15Complete(banks: Banks, g: Generation)
    requires Full15Shape(banks, g) && FullBanks(banks)
    ensures g.count == |AllNumbers(g.sets)| == 15
    ensures forall i :: 0 <= i < 15 ==> AllNumbers(g.sets)[i] == i + 1
  {
    Full15Numbers(banks, g);
    Full15Sizes(banks, g);
    CountSix(g.sets);
    BlockLength(AllNumbers(g.sets), 1, 15);
  }

  lemma TotalTwo(sets: seq<QuestionSet>)
    requires |sets| == 2
    ensures TotalQuestions(sets) == |sets[0].questions| + |sets[1].questions|
  {
    TotalStep(sets, 1);
    TotalStep(sets, 2);
    assert sets[..0] == [] && sets[..2] == sets;
  }

  /** A survey holds two to six questions, each set numbered 1.. on its own. */
  lemma SurveyCount(bank: Bank, g: Generation)
    requires SurveyShape(bank, g)
    ensures 2 <= g.count <= 6
    ensures g.count == |g.sets[0].questions| + |g.sets[1].questions|
    ensures |g.sets[0].questions| >= 1 && |g.sets[1].questions| >= 1
    ensures g.sets[0].questions[0].number == 1 && g.sets[1].questions[0].number == 1
  {
    TotalTwo(g.sets);
    GeneratedSize(bank[g.sets[0].topic], 3, 1, g.sets[0].questions);
    GeneratedSize(bank[g.sets[1].topic], 3, 1, g.sets[1].questions);
  }
}
