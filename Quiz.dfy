/** Question generation for test papers: the marking rule, the per-type quota, the
    fixed fallback questions, the individual-generation loop with de-duplication and
    the top-level `generate` loop over question types. The language model is an
    oracle: its replies and the random draws from the difficulty and Bloom
    distributions are given as inputs. */
module Quiz {
  import opened Json

  // ---------------------------------------------------------------------------
  // Marks
  // ---------------------------------------------------------------------------

  /** Extra marks for a difficulty, in half-units: medium adds 0.5, hard adds 1. */
  function DifficultyHalves(difficulty: string): (h: nat)
    ensures h <= 2
    ensures h == 0 <==> difficulty != "medium" && difficulty != "hard"
    ensures difficulty == "medium" ==> h == 1
    ensures difficulty == "hard" ==> h == 2
  {
    if difficulty == "medium" then 1 else if difficulty == "hard" then 2 else 0
  }

  /** Extra marks for a Bloom level, in half-units: application and analysis add 0.5,
      evaluation and creation add 1; every other level adds nothing. */
  function BloomHalves(bloomLevel: string): (h: nat)
    ensures h <= 2
    ensures h == 0 <==> bloomLevel !in ["application", "analysis", "evaluation", "creation"]
    ensures bloomLevel in ["application", "analysis"] ==> h == 1
    ensures bloomLevel in ["evaluation", "creation"] ==> h == 2
  {
    if bloomLevel in ["application", "analysis"] then 1
    else if bloomLevel in ["evaluation", "creation"] then 2
    else 0
  }

  /** Python's `round(h / 2)`: the nearest integer, and the even one on a tie. */
  function RoundHalfEven(h: int): (r: int)
    ensures h % 2 == 0 ==> 2 * r == h
    ensures h % 2 == 1 ==> (2 * r == h - 1 || 2 * r == h + 1) && r % 2 == 0
  {
    var q := h / 2;
    if h % 2 == 0 || q % 2 == 0 then q else q + 1
  }

  /** `_calculate_marks`: base 1, plus the difficulty and Bloom increments, rounded
      half to even, and at least 1. */
  function CalculateMarks(difficulty: string, bloomLevel: string): (m: int)
    ensures 1 <= m <= 3
  {
    var base := 2 + DifficultyHalves(difficulty) + BloomHalves(bloomLevel);
    var r := RoundHalfEven(base);
    if r < 1 then 1 else r
  }

  /** An independent statement of the marking rule as a table over the two
      increments (rows: difficulty, columns: Bloom level). */
  function MarksTable(dh: nat, bh: nat): int
    requires dh <= 2 && bh <= 2
  {
    [[1, 2, 2],
     [2, 2, 2],
     [2, 2, 3]][dh][bh]
  }

  lemma MarksMatchTable(difficulty: string, bloomLevel: string)
    ensures CalculateMarks(difficulty, bloomLevel)
         == MarksTable(DifficultyHalves(difficulty), BloomHalves(bloomLevel))
  {
  }

  lemma EasyPlainBloomGivesOne(bloomLevel: string)
    requires bloomLevel !in ["application", "analysis", "evaluation", "creation"]
    ensures CalculateMarks("easy", bloomLevel) == 1
  {
  }

  lemma HardTopBloomGivesThree(bloomLevel: string)
    requires bloomLevel == "evaluation" || bloomLevel == "creation"
    ensures CalculateMarks("hard", bloomLevel) == 3
  {
  }

  /** The totals 2.5 and 1.5 are ties and go to the even neighbour, 2. */
  lemma HalfwayTotalsRoundToEven()
    ensures CalculateMarks("hard", "application") == 2
    ensures CalculateMarks("medium", "creation") == 2
    ensures CalculateMarks("medium", "remember") == 2
  {
  }

  lemma MarksMonotoneInDifficulty(bloomLevel: string)
    ensures CalculateMarks("easy", bloomLevel) <= CalculateMarks("medium", bloomLevel)
    ensures CalculateMarks("medium", bloomLevel) <= CalculateMarks("hard", bloomLevel)
  {
  }

  lemma MarksMonotoneInBloom(difficulty: string, plain: string, middle: string, top: string)
    requires plain !in ["application", "analysis", "evaluation", "creation"]
    requires middle in ["application", "analysis"]
    requires top in ["evaluation", "creation"]
    ensures CalculateMarks(difficulty, plain) <= CalculateMarks(difficulty, middle)
    ensures CalculateMarks(difficulty, middle) <= CalculateMarks(difficulty, top)
  {
  }

  // ---------------------------------------------------------------------------
  // Quota per question type
  // ---------------------------------------------------------------------------

  /** `num_questions // len(question_types)`, raised to 1 when that is below 1.
      Only computed inside the loop over the types, so there is at least one. */
  function PerTypeQuota(numQuestions: int, typeCount: nat): (num: int)
    requires typeCount > 0
    ensures num >= 1
    ensures numQuestions >= typeCount ==> num * typeCount <= numQuestions < (num + 1) * typeCount
    ensures numQuestions < typeCount ==> num == 1
  {
    var num := numQuestions / typeCount;
    if num < 1 then 1 else num
  }

  // ---------------------------------------------------------------------------
  // Questions
  // ---------------------------------------------------------------------------

  /** One question dict. `options` is None when the dict has no "options" key and
      `answer` is None when it has no "answer" key. */
  datatype Question = Question(
    text: string,
    qtype: string,
    options: Option<seq<string>>,
    answer: Option<string>,
    bloomLevel: string,
    difficulty: string,
    marks: int)

  /** The four placeholder options of the multiple-choice fallback. */
  const PlaceholderOptions: seq<string> := ["Option 1", "Option 2", "Option 3", "Option 4"]

  /** `_create_fallback_question`. */
  function FallbackQuestion(subject: string, topic: string, qtype: string, difficulty: string, bloomLevel: string): (q: Question)
    ensures q.qtype == qtype && q.bloomLevel == bloomLevel && q.difficulty == difficulty
    ensures q.answer.Some?
    ensures qtype == "mcq" ==>
      && q.text == "Which of these relates to " + topic + " in " + subject + "?"
      && q.options == Some(PlaceholderOptions)
      && q.answer == Some("Option 1")
      && q.marks == 1
    ensures qtype != "mcq" ==>
      && q.text == "Explain " + topic + " in " + subject
      && q.options == None
      && q.answer == Some("Sample answer about " + topic)
      && (q.marks == 1 <==> difficulty == "easy")
      && (q.marks == 2 <==> difficulty != "easy")
  {
    if qtype == "mcq" then
      Question("Which of these relates to " + topic + " in " + subject + "?", qtype,
               Some(PlaceholderOptions), Some("Option 1"), bloomLevel, difficulty, 1)
    else
      Question("Explain " + topic + " in " + subject, qtype, None,
               Some("Sample answer about " + topic), bloomLevel, difficulty,
               if difficulty == "easy" then 1 else 2)
  }

  /** The open-answer fallback scores what the marking rule gives a "remember"
      question for the three known difficulties, and differs from it for any other
      difficulty string. */
  lemma FallbackMarksAgainstMarkingRule(subject: string, topic: string, qtype: string, difficulty: string, bloomLevel: string)
    requires qtype != "mcq"
    ensures difficulty in ["easy", "medium", "hard"] <==>
      FallbackQuestion(subject, topic, qtype, difficulty, bloomLevel).marks == CalculateMarks(difficulty, "remember")
  {
    assert BloomHalves("remember") == 0;
  }

  // ---------------------------------------------------------------------------
  // Individual generation: `_generate_individual_questions`
  // ---------------------------------------------------------------------------

  /** What one call of the per-question chain did. */
  datatype Reply =
    | Raised                                                     // the chain raised
    | NotDict                                                    // it returned something other than a dict
    | Dict(question: Option<string>, options: Option<seq<string>>)  // a dict, with its "question" and "options" keys

  /** One iteration's inputs: the two draws from the distributions and the chain's reply. */
  datatype Attempt = Attempt(difficulty: string, bloomLevel: string, reply: Reply)

  /** `question_text and question_text not in existing_questions`. */
  predicate Accepts(reply: Reply, seen: set<string>) {
    reply.Dict? && reply.question.Some? && reply.question.value != "" && reply.question.value !in seen
  }

  /** The question built from an accepted reply. */
  function AcceptedQuestion(qtype: string, a: Attempt): (q: Question)
    requires a.reply.Dict? && a.reply.question.Some?
    ensures q.answer.None? && q.text == a.reply.question.value && q.qtype == qtype
    ensures q.difficulty == a.difficulty && q.bloomLevel == a.bloomLevel
    ensures q.marks == CalculateMarks(q.difficulty, q.bloomLevel)
    ensures q.options == Some(a.reply.options.GetOr([]))
  {
    Question(a.reply.question.value, qtype, Some(a.reply.options.GetOr([])), None,
             a.bloomLevel, a.difficulty, CalculateMarks(a.difficulty, a.bloomLevel))
  }

  /** The while loop of `_generate_individual_questions` run from the state
      (`seen`, `acc`) over the remaining oracle attempts. The second component is
      false when the oracle ran out before `num` questions were collected: the source
      would go on calling the model. */
  function IndividualRun(subject: string, topic: string, qtype: string, num: int,
                         attempts: seq<Attempt>, seen: set<string>, acc: seq<Question>): (seq<Question>, bool)
    decreases |attempts|
  {
    if |acc| >= num then (acc, true)
    else if attempts == [] then (acc, false)
    else
      var a := attempts[0];
      if a.reply.Raised? then
        IndividualRun(subject, topic, qtype, num, attempts[1..], seen,
                      acc + [FallbackQuestion(subject, topic, qtype, a.difficulty, a.bloomLevel)])
      else if Accepts(a.reply, seen) then
        IndividualRun(subject, topic, qtype, num, attempts[1..], seen + {a.reply.question.value},
                      acc + [AcceptedQuestion(qtype, a)])
      else
        IndividualRun(subject, topic, qtype, num, attempts[1..], seen, acc)
  }

  /** The texts of the questions taken from the model (those without an answer key)
      are pairwise distinct and all recorded in `seen`. */
  ghost predicate AcceptedDistinct(qs: seq<Question>, seen: set<string>) {
    && (forall i :: 0 <= i < |qs| && qs[i].answer.None? ==> qs[i].text in seen)
    && (forall i, j :: 0 <= i < j < |qs| && qs[i].answer.None? && qs[j].answer.None? ==> qs[i].text != qs[j].text)
  }

  /** The questions taken from the model have pairwise distinct texts. */
  predicate TakenTextsDistinct(qs: seq<Question>) {
    forall i, j :: 0 <= i < j < |qs| && qs[i].answer.None? && qs[j].answer.None? ==> qs[i].text != qs[j].text
  }

  /** Each iteration adds at most one question, so the loop stops exactly at `num`;
      it only extends what it started with. */
  lemma {:induction false} IndividualRunLength(subject: string, topic: string, qtype: string, num: int,
                                               attempts: seq<Attempt>, seen: set<string>, acc: seq<Question>)
    ensures var (qs, complete) := IndividualRun(subject, topic, qtype, num, attempts, seen, acc);
      && acc <= qs
      && |qs| <= (if |acc| >= num then |acc| else num)
      && (complete ==> |qs| == (if |acc| >= num then |acc| else num))
      && (!complete ==> |qs| < num)
    decreases |attempts|
  {
    if |acc| >= num || attempts == [] {
    } else {
      var a := attempts[0];
      if a.reply.Raised? {
        var acc' := acc + [FallbackQuestion(subject, topic, qtype, a.difficulty, a.bloomLevel)];
        IndividualRunLength(subject, topic, qtype, num, attempts[1..], seen, acc');
      } else if Accepts(a.reply, seen) {
        var acc' := acc + [AcceptedQuestion(qtype, a)];
        IndividualRunLength(subject, topic, qtype, num, attempts[1..], seen + {a.reply.question.value}, acc');
      } else {
        IndividualRunLength(subject, topic, qtype, num, attempts[1..], seen, acc);
      }
    }
  }

  lemma {:induction false} IndividualRunDistinct(subject: string, topic: string, qtype: string, num: int,
                                                 attempts: seq<Attempt>, seen: set<string>, acc: seq<Question>)
    requires AcceptedDistinct(acc, seen)
    ensures TakenTextsDistinct(IndividualRun(subject, topic, qtype, num, attempts, seen, acc).0)
    decreases |attempts|
  {
    if |acc| >= num || attempts == [] {
    } else {
      var a := attempts[0];
      if a.reply.Raised? {
        var acc' := acc + [FallbackQuestion(subject, topic, qtype, a.difficulty, a.bloomLevel)];
        assert AcceptedDistinct(acc', seen);
        assert IndividualRun(subject, topic, qtype, num, attempts, seen, acc)
            == IndividualRun(subject, topic, qtype, num, attempts[1..], seen, acc');
        IndividualRunDistinct(subject, topic, qtype, num, attempts[1..], seen, acc');
      } else if Accepts(a.reply, seen) {
        var seen' := seen + {a.reply.question.value};
        var acc' := acc + [AcceptedQuestion(qtype, a)];
        assert AcceptedDistinct(acc', seen');
        assert IndividualRun(subject, topic, qtype, num, attempts, seen, acc)
            == IndividualRun(subject, topic, qtype, num, attempts[1..], seen', acc');
        IndividualRunDistinct(subject, topic, qtype, num, attempts[1..], seen', acc');
      } else {
        IndividualRunDistinct(subject, topic, qtype, num, attempts[1..], seen, acc);
      }
    }
  }

  /** `_generate_individual_questions`: a while loop that appends at most one question
      per model call, skipping non-dict replies, empty texts and texts already seen,
      and appending a fallback question when the call raises. */
  method IndividualQuestions(subject: string, topic: string, qtype: string, num: int, attempts: seq<Attempt>)
    returns (questions: seq<Question>, complete: bool)
    ensures (questions, complete) == IndividualRun(subject, topic, qtype, num, attempts, {}, [])
    ensures complete ==> |questions| == (if num < 0 then 0 else num)
    ensures !complete ==> |questions| < num
    ensures forall q :: q in questions ==> q.qtype == qtype
    ensures forall i, j :: 0 <= i < j < |questions| && questions[i].answer.None? && questions[j].answer.None? ==>
      questions[i].text != questions[j].text
  {
    questions := [];
    var existing: set<string> := {};
    var i := 0;
    while |questions| < num && i < |attempts|
      invariant 0 <= i <= |attempts|
      invariant IndividualRun(subject, topic, qtype, num, attempts[i..], existing, questions)
             == IndividualRun(subject, topic, qtype, num, attempts, {}, [])
      invariant forall q :: q in questions ==> q.qtype == qtype
      decreases |attempts| - i
    {
      var a := attempts[i];
      assert attempts[i..][1..] == attempts[i + 1..];
      match a.reply {
        case Raised =>
          questions := questions + [FallbackQuestion(subject, topic, qtype, a.difficulty, a.bloomLevel)];
        case NotDict =>
        case Dict(questionText, options) =>
          if questionText.Some? && questionText.value != "" && questionText.value !in existing {
            existing := existing + {questionText.value};
            questions := questions + [Question(questionText.value, qtype, Some(options.GetOr([])), None,
                                               a.bloomLevel, a.difficulty, CalculateMarks(a.difficulty, a.bloomLevel))];
          }
      }
      i := i + 1;
    }
    complete := |questions| >= num;
    IndividualRunLength(subject, topic, qtype, num, attempts, {}, []);
    IndividualRunDistinct(subject, topic, qtype, num, attempts, {}, []);
  }

  /** When every call raises, as it does while the per-question chain is missing,
      the loop fills the quota with fallback questions. */
  lemma {:induction false} AllRaisedGivesFallbacks(subject: string, topic: string, qtype: string, num: int,
                                                   attempts: seq<Attempt>, seen: set<string>, acc: seq<Question>)
    requires forall k :: 0 <= k < |attempts| ==> attempts[k].reply.Raised?
    requires |acc| + |attempts| >= num
    ensures var (qs, complete) := IndividualRun(subject, topic, qtype, num, attempts, seen, acc);
      && complete
      && |qs| == (if |acc| >= num then |acc| else num)
      && qs[..|acc|] == acc
      && forall k :: |acc| <= k < |qs| ==> qs[k] == FallbackQuestion(subject, topic, qtype, attempts[k - |acc|].difficulty, attempts[k - |acc|].bloomLevel)
    decreases |attempts|
  {
    if |acc| >= num {
    } else {
      var a := attempts[0];
      var acc' := acc + [FallbackQuestion(subject, topic, qtype, a.difficulty, a.bloomLevel)];
      AllRaisedGivesFallbacks(subject, topic, qtype, num, attempts[1..], seen, acc');
      var qs := IndividualRun(subject, topic, qtype, num, attempts, seen, acc).0;
      forall k | |acc| <= k < |qs|
        ensures qs[k] == FallbackQuestion(subject, topic, qtype, attempts[k - |acc|].difficulty, attempts[k - |acc|].bloomLevel)
      {
        if k > |acc| {
          assert attempts[k - |acc|] == attempts[1..][k - |acc'|];
        }
      }
    }
  }

  // ---------------------------------------------------------------------------
  // Batch generation and `generate`
  // ---------------------------------------------------------------------------

  /** One entry of the batch reply's "questions" list: a dict with its optional keys
      (plus the draws that `_select_from_distribution` made for the missing ones), or
      something that is not a dict, on which `.get` raises. */
  datatype BatchItem =
    | BatchItem(question: Option<string>, options: Option<seq<string>>,
                bloomLevel: Option<string>, difficulty: Option<string>,
                drawnBloom: string, drawnDifficulty: string)
    | NotADict

  /** What the batch chain did for one question type. */
  datatype BatchReply =
    | BatchRaised                              // the chain raised
    | BatchMalformed                           // not a dict, or no "questions" key
    | BatchQuestions(items: seq<BatchItem>)

  /** The question built from one batch entry. The recorded difficulty and Bloom level
      fall back to the draws, but the marks fall back to "easy" and "remember". */
  function BatchQuestion(topic: string, qtype: string, item: BatchItem): (q: Question)
    requires item.BatchItem?
    ensures q.qtype == qtype && q.answer.None?
    ensures q.text == (if item.question.Some? then item.question.value else "Question about " + topic)
    ensures q.options == Some(item.options.GetOr([]))
    ensures q.difficulty == item.difficulty.GetOr(item.drawnDifficulty)
    ensures q.bloomLevel == item.bloomLevel.GetOr(item.drawnBloom)
    ensures q.marks == CalculateMarks(item.difficulty.GetOr("easy"), item.bloomLevel.GetOr("remember"))
    ensures 1 <= q.marks <= 3
  {
    Question(item.question.GetOr("Question about " + topic), qtype, Some(item.options.GetOr([])), None,
             item.bloomLevel.GetOr(item.drawnBloom), item.difficulty.GetOr(item.drawnDifficulty),
             CalculateMarks(item.difficulty.GetOr("easy"), item.bloomLevel.GetOr("remember")))
  }

  /** A batch entry without difficulty and Bloom level scores 1 whatever was drawn for
      the record. */
  lemma BatchDefaultsScoreOne(topic: string, qtype: string, item: BatchItem)
    requires item.BatchItem? && item.difficulty.None? && item.bloomLevel.None?
    ensures BatchQuestion(topic, qtype, item).marks == 1
    ensures BatchQuestion(topic, qtype, item).difficulty == item.drawnDifficulty
  {
  }

  /** The questions appended from the batch entries before the first one that is not a
      dict, and whether the whole list was converted. */
  function BatchPrefix(topic: string, qtype: string, items: seq<BatchItem>): (r: (seq<Question>, bool))
    ensures |r.0| <= |items| && (r.1 ==> |r.0| == |items|)
    ensures !r.1 ==> |r.0| < |items|
  {
    if items == [] then ([], true)
    else if items[0].NotADict? then ([], false)
    else
      var rest := BatchPrefix(topic, qtype, items[1..]);
      ([BatchQuestion(topic, qtype, items[0])] + rest.0, rest.1)
  }

  /** The batch succeeds exactly when every entry is a dict. */
  lemma {:induction false} BatchPrefixSucceeds(topic: string, qtype: string, items: seq<BatchItem>)
    ensures BatchPrefix(topic, qtype, items).1 <==> forall k :: 0 <= k < |items| ==> items[k].BatchItem?
  {
    if items != [] {
      BatchPrefixSucceeds(topic, qtype, items[1..]);
      assert forall k :: 1 <= k < |items| ==> items[k] == items[1..][k - 1];
    }
  }

  /** The questions are the conversions of the leading entries, in order, and when the
      batch fails the next entry is not a dict. */
  lemma {:induction false} BatchPrefixConverts(topic: string, qtype: string, items: seq<BatchItem>)
    ensures var r := BatchPrefix(topic, qtype, items);
      && (forall k :: 0 <= k < |r.0| ==> items[k].BatchItem? && r.0[k] == BatchQuestion(topic, qtype, items[k]))
      && (!r.1 ==> items[|r.0|].NotADict?)
  {
    if items != [] && items[0].BatchItem? {
      BatchPrefixConverts(topic, qtype, items[1..]);
      var rest := BatchPrefix(topic, qtype, items[1..]);
      var r := BatchPrefix(topic, qtype, items);
      assert r.0 == [BatchQuestion(topic, qtype, items[0])] + rest.0;
      forall k | 1 <= k < |r.0|
        ensures items[k].BatchItem? && r.0[k] == BatchQuestion(topic, qtype, items[k])
      {
        assert r.0[k] == rest.0[k - 1] && items[k] == items[1..][k - 1];
      }
      if !r.1 {
        assert items[|r.0|] == items[1..][|rest.0|];
      }
    }
  }

  /** The questions produced for one type: the batch entries, and when the batch
      failed at any point, the individual loop's questions after whatever was
      appended before the failure. */
  function TypeQuestions(subject: string, topic: string, qtype: string, num: int,
                         reply: BatchReply, attempts: seq<Attempt>): seq<Question>
  {
    var individual := IndividualRun(subject, topic, qtype, num, attempts, {}, []).0;
    match reply
    case BatchQuestions(items) =>
      var prefix := BatchPrefix(topic, qtype, items);
      if prefix.1 then prefix.0 else prefix.0 + individual
    case _ => individual
  }

  /** What `generate` has collected after the first `n` question types. */
  function Generated(subject: string, topic: string, questionTypes: seq<string>, numQuestions: int,
                     batch: nat -> BatchReply, attempts: nat -> seq<Attempt>, n: nat): seq<Question>
    requires n <= |questionTypes|
  {
    if n == 0 then []
    else
      Generated(subject, topic, questionTypes, numQuestions, batch, attempts, n - 1)
      + TypeQuestions(subject, topic, questionTypes[n - 1], PerTypeQuota(numQuestions, |questionTypes|),
                       batch(n - 1), attempts(n - 1))
  }

  /** The loop over the batch entries inside `generate`'s try block. */
  method ConvertBatch(topic: string, qtype: string, items: seq<BatchItem>) returns (qs: seq<Question>, ok: bool)
    ensures (qs, ok) == BatchPrefix(topic, qtype, items)
  {
    qs := [];
    var k := 0;
    assert items[0..] == items;
    assert qs + BatchPrefix(topic, qtype, items).0 == BatchPrefix(topic, qtype, items).0;
    while k < |items|
      invariant 0 <= k <= |items|
      invariant BatchPrefix(topic, qtype, items)
             == (qs + BatchPrefix(topic, qtype, items[k..]).0, BatchPrefix(topic, qtype, items[k..]).1)
    {
      if items[k].NotADict? {
        ok := false;
        BatchPrefixStops(topic, qtype, items, k, qs);
        return;
      }
      BatchPrefixStep(topic, qtype, items, k, qs);
      qs := qs + [BatchQuestion(topic, qtype, items[k])];
      k := k + 1;
    }
    ok := true;
    assert items[k..] == [];
    assert qs + [] == qs;
  }

  /** A dict entry at position k moves its question from the rest to the part done. */
  lemma BatchPrefixStep(topic: string, qtype: string, items: seq<BatchItem>, k: nat, qs: seq<Question>)
    requires k < |items| && items[k].BatchItem?
    requires BatchPrefix(topic, qtype, items)
          == (qs + BatchPrefix(topic, qtype, items[k..]).0, BatchPrefix(topic, qtype, items[k..]).1)
    ensures BatchPrefix(topic, qtype, items)
         == ((qs + [BatchQuestion(topic, qtype, items[k])]) + BatchPrefix(topic, qtype, items[k + 1..]).0,
             BatchPrefix(topic, qtype, items[k + 1..]).1)
  {
    assert items[k..][0] == items[k];
    assert items[k..][1..] == items[k + 1..];
    var rest := BatchPrefix(topic, qtype, items[k + 1..]).0;
    var q := BatchQuestion(topic, qtype, items[k]);
    assert qs + ([q] + rest) == (qs + [q]) + rest;
  }

  /** An entry at position k that is not a dict ends the conversion with what is done. */
  lemma BatchPrefixStops(topic: string, qtype: string, items: seq<BatchItem>, k: nat, qs: seq<Question>)
    requires k < |items| && items[k].NotADict?
    requires BatchPrefix(topic, qtype, items)
          == (qs + BatchPrefix(topic, qtype, items[k..]).0, BatchPrefix(topic, qtype, items[k..]).1)
    ensures BatchPrefix(topic, qtype, items) == (qs, false)
  {
    assert items[k..][0] == items[k];
    assert qs + [] == qs;
  }

  /** One iteration of `generate`'s loop over the types: the batch entries, and the
      individual loop's questions when the batch failed. */
  method TypeBatch(subject: string, topic: string, qtype: string, num: int,
                   reply: BatchReply, attempts: seq<Attempt>) returns (produced: seq<Question>)
    ensures produced == TypeQuestions(subject, topic, qtype, num, reply, attempts)
  {
    produced := [];
    var batchFailed := true;
    if reply.BatchQuestions? {
      var converted, ok := ConvertBatch(topic, qtype, reply.items);
      produced := converted;
      batchFailed := !ok;
    }
    if batchFailed {
      var individual, _ := IndividualQuestions(subject, topic, qtype, num, attempts);
      produced := produced + individual;
    }
  }

  /** `generate`: for each requested type, the batch chain's questions, falling back
      to individual generation of the per-type quota. */
  method Generate(subject: string, topic: string, questionTypes: seq<string>, numQuestions: int,
                  batch: nat -> BatchReply, attempts: nat -> seq<Attempt>)
    returns (questions: seq<Question>)
    ensures questions == Generated(subject, topic, questionTypes, numQuestions, batch, attempts, |questionTypes|)
  {
    questions := [];
    var t := 0;
    while t < |questionTypes|
      invariant 0 <= t <= |questionTypes|
      invariant questions == Generated(subject, topic, questionTypes, numQuestions, batch, attempts, t)
    {
      var num := numQuestions / |questionTypes|;
      if num < 1 {
        num := 1;
      }
      assert num == PerTypeQuota(numQuestions, |questionTypes|);
      var produced := TypeBatch(subject, topic, questionTypes[t], num, batch(t), attempts(t));
      questions := questions + produced;
      t := t + 1;
    }
  }

  lemma {:induction false} IndividualRunShape(subject: string, topic: string, qtype: string, num: int,
                                              attempts: seq<Attempt>, seen: set<string>, acc: seq<Question>)
    requires forall q :: q in acc ==> q.qtype == qtype && 1 <= q.marks <= 3
    ensures forall q :: q in IndividualRun(subject, topic, qtype, num, attempts, seen, acc).0 ==>
      q.qtype == qtype && 1 <= q.marks <= 3
    decreases |attempts|
  {
    if |acc| >= num || attempts == [] {
    } else {
      var a := attempts[0];
      if a.reply.Raised? {
        IndividualRunShape(subject, topic, qtype, num, attempts[1..], seen,
                           acc + [FallbackQuestion(subject, topic, qtype, a.difficulty, a.bloomLevel)]);
      } else if Accepts(a.reply, seen) {
        IndividualRunShape(subject, topic, qtype, num, attempts[1..], seen + {a.reply.question.value},
                           acc + [AcceptedQuestion(qtype, a)]);
      } else {
        IndividualRunShape(subject, topic, qtype, num, attempts[1..], seen, acc);
      }
    }
  }

  /** The questions produced for one type carry that type and 1 to 3 marks. */
  lemma TypeQuestionsShape(subject: string, topic: string, qtype: string, num: int,
                           reply: BatchReply, attempts: seq<Attempt>)
    ensures forall q :: q in TypeQuestions(subject, topic, qtype, num, reply, attempts) ==>
      q.qtype == qtype && 1 <= q.marks <= 3
  {
    IndividualRunShape(subject, topic, qtype, num, attempts, {}, []);
    if reply.BatchQuestions? {
      BatchPrefixConverts(topic, qtype, reply.items);
    }
  }

  /** Every generated question carries one of the requested types and 1 to 3 marks. */
  lemma {:induction false} GeneratedShape(subject: string, topic: string, questionTypes: seq<string>, numQuestions: int,
                                          batch: nat -> BatchReply, attempts: nat -> seq<Attempt>, n: nat)
    requires n <= |questionTypes|
    ensures forall q :: q in Generated(subject, topic, questionTypes, numQuestions, batch, attempts, n) ==>
      q.qtype in questionTypes && 1 <= q.marks <= 3
  {
    if n > 0 {
      GeneratedShape(subject, topic, questionTypes, numQuestions, batch, attempts, n - 1);
      var num := PerTypeQuota(numQuestions, |questionTypes|);
      TypeQuestionsShape(subject, topic, questionTypes[n - 1], num, batch(n - 1), attempts(n - 1));
    }
  }

  /** A type whose batch call failed and whose individual calls all raised gets
      exactly its quota of fallback questions. */
  lemma TypeQuestionsAllFallback(subject: string, topic: string, qtype: string, num: nat,
                                 reply: BatchReply, attempts: seq<Attempt>)
    requires !reply.BatchQuestions?
    requires forall k :: 0 <= k < |attempts| ==> attempts[k].reply.Raised?
    requires |attempts| >= num
    ensures |TypeQuestions(subject, topic, qtype, num, reply, attempts)| == num
    ensures forall q :: q in TypeQuestions(subject, topic, qtype, num, reply, attempts) ==> q.answer.Some?
  {
    AllRaisedGivesFallbacks(subject, topic, qtype, num, attempts, {}, []);
  }

  /** When every batch call fails and every individual call raises, each type gets
      exactly its quota, all of them fallback questions. */
  lemma {:induction false} GeneratedAllFallback(subject: string, topic: string, questionTypes: seq<string>, numQuestions: int,
                                                batch: nat -> BatchReply, attempts: nat -> seq<Attempt>, n: nat)
    requires 0 < n <= |questionTypes|
    requires forall t :: 0 <= t < n ==> !batch(t).BatchQuestions?
    requires forall t, k :: 0 <= t < n && 0 <= k < |attempts(t)| ==> attempts(t)[k].reply.Raised?
    requires forall t :: 0 <= t < n ==> |attempts(t)| >= PerTypeQuota(numQuestions, |questionTypes|)
    ensures |Generated(subject, topic, questionTypes, numQuestions, batch, attempts, n)|
         == n * PerTypeQuota(numQuestions, |questionTypes|)
    ensures forall q :: q in Generated(subject, topic, questionTypes, numQuestions, batch, attempts, n) ==> q.answer.Some?
  {
    var num := PerTypeQuota(numQuestions, |questionTypes|);
    if n > 1 {
      GeneratedAllFallback(subject, topic, questionTypes, numQuestions, batch, attempts, n - 1);
    }
    var last := attempts(n - 1);
    assert forall k :: 0 <= k < |last| ==> last[k].reply.Raised?;
    TypeQuestionsAllFallback(subject, topic, questionTypes[n - 1], num, batch(n - 1), last);
    assert n * num == (n - 1) * num + num;
  }

  // ---------------------------------------------------------------------------
  // Knowledge-base context: `RAGClient.get_context` and its use in `generate`
  // ---------------------------------------------------------------------------

  /** The HTTP exchange with the knowledge base's query endpoint. `sourceDocuments` is
      None when the body lacks `results.source_documents`; each document's metadata
      values are given already rendered as text. */
  datatype KbReply =
    | KbUnreachable                    // the request or the JSON decoding raised
    | KbReply(status: int, sourceDocuments: Option<seq<map<string, string>>>)

  /** `d.get(key, default)`. */
  function DictGet(d: map<string, string>, key: string, default: string): (v: string)
    ensures key in d ==> v == d[key]
    ensures key !in d ==> v == default
  {
    if key in d then d[key] else default
  }

  /** One document's block of the context, or None when it has no "source" key
      (a KeyError): its source and page on one line, its content on the next, with
      "N/A" for a missing page and "" for a missing text. */
  function FormatDoc(doc: map<string, string>): (r: Option<string>)
    ensures r.Some? <==> "source" in doc
    ensures r.Some? ==> r.value == "Source: " + doc["source"] + ", Page: " + DictGet(doc, "page", "N/A")
                                   + "\nContent: " + DictGet(doc, "text", "")
  {
    if "source" !in doc then None
    else Some("Source: " + doc["source"] + ", Page: " + DictGet(doc, "page", "N/A")
              + "\nContent: " + DictGet(doc, "text", ""))
  }

  /** `"\n\n".join(parts)`: empty for no parts, the part itself for one, and
      otherwise starting with the first part. */
  function JoinBlocks(parts: seq<string>): (r: string)
    ensures parts == [] ==> r == ""
    ensures |parts| == 1 ==> r == parts[0]
    ensures parts != [] ==> parts[0] <= r
  {
    if parts == [] then ""
    else if |parts| == 1 then parts[0]
    else parts[0] + "\n\n" + JoinBlocks(parts[1..])
  }

  /** Appending a part adds the blank-line separator and the part at the end, so
      the parts appear in order, each separated from the next by "\n\n". */
  lemma {:induction false} JoinBlocksSnoc(parts: seq<string>, p: string)
    requires parts != []
    ensures JoinBlocks(parts + [p]) == JoinBlocks(parts) + "\n\n" + p
    decreases |parts|
  {
    if |parts| == 1 {
      assert parts + [p] == [parts[0], p];
      assert (parts + [p])[1..] == [p];
    } else {
      assert (parts + [p])[1..] == parts[1..] + [p];
      JoinBlocksSnoc(parts[1..], p);
    }
  }

  function FormatAll(docs: seq<map<string, string>>): (blocks: seq<string>)
    requires forall k :: 0 <= k < |docs| ==> "source" in docs[k]
    ensures |blocks| == |docs|
    ensures forall k :: 0 <= k < |docs| ==> Some(blocks[k]) == FormatDoc(docs[k])
  {
    if docs == [] then [] else [FormatDoc(docs[0]).value] + FormatAll(docs[1..])
  }

  /** `get_context`: the formatted blocks of all retrieved documents, or None when the
      call fails, the status is not 200, the list is missing or empty, or a document
      has no source. */
  function GetContext(reply: KbReply): (c: Option<string>)
    ensures c.Some? <==>
      && reply.KbReply? && reply.status == 200
      && reply.sourceDocuments.Some? && reply.sourceDocuments.value != []
      && forall k :: 0 <= k < |reply.sourceDocuments.value| ==> "source" in reply.sourceDocuments.value[k]
    ensures c.Some? ==> c.value == JoinBlocks(FormatAll(reply.sourceDocuments.value))
  {
    match reply
    case KbUnreachable => None
    case KbReply(status, docs) =>
      if status != 200 || docs.None? || docs.value == [] then None
      else if exists k :: 0 <= k < |docs.value| && "source" !in docs.value[k] then None
      else Some(JoinBlocks(FormatAll(docs.value)))
  }

  lemma {:induction false} JoinBlocksHasPart(parts: seq<string>, k: nat)
    requires k < |parts|
    ensures exists at :: OccursAt(JoinBlocks(parts), parts[k], at)
  {
    var j := JoinBlocks(parts);
    if |parts| == 1 || k == 0 {
      assert j[0..|parts[0]|] == parts[0];
      assert OccursAt(j, parts[k], 0);
    } else {
      JoinBlocksHasPart(parts[1..], k - 1);
      var rest := JoinBlocks(parts[1..]);
      var at :| OccursAt(rest, parts[k], at);
      var off := |parts[0]| + 2;
      assert j == parts[0] + "\n\n" + rest;
      assert j[off + at..off + at + |parts[k]|] == rest[at..at + |parts[k]|];
      assert OccursAt(j, parts[k], off + at);
    }
  }

  /** Every retrieved document's block, with its source, page and content, appears in
      the context. */
  lemma ContextHoldsEveryDocument(reply: KbReply, k: nat)
    requires GetContext(reply).Some?
    requires k < |reply.sourceDocuments.value|
    ensures Contains(GetContext(reply).value, FormatDoc(reply.sourceDocuments.value[k]).value)
  {
    var blocks := FormatAll(reply.sourceDocuments.value);
    JoinBlocksHasPart(blocks, k);
    ContainsAt(GetContext(reply).value, blocks[k]);
  }

  /** `context or self.rag_client.get_context(...) or ""`. */
  function ChooseContext(context: Option<string>, fetched: Option<string>): (c: string)
    ensures context.Some? && context.value != "" ==> c == context.value
    ensures (context.None? || context.value == "") ==> c == fetched.GetOr("")
  {
    if context.Some? && context.value != "" then context.value
    else if fetched.Some? && fetched.value != "" then fetched.value
    else ""
  }
}
