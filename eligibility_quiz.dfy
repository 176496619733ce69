/** The medical eligibility quiz: five fixed questions, the answers recorded
    so far, navigation between questions, and the scoring done when the last
    question is confirmed. */
module EligibilityQuiz {
  import opened Common

  datatype Choice = Choice(value: string, disqualifying: bool)
  datatype Question = Question(id: string, options: seq<Choice>)

  /** The questions and their options, in display order. */
  const Questions: seq<Question> := [
    Question("age", [Choice("under18", true), Choice("18-65", false), Choice("over65", true)]),
    Question("weight", [Choice("under50", true), Choice("50-110", false), Choice("over110", false)]),
    Question("health", [Choice("yes", false), Choice("no", true)]),
    Question("medications", [Choice("none", false), Choice("safe", false), Choice("restricted", true)]),
    Question("lastDonation", [Choice("never", false), Choice("over8weeks", false), Choice("recent", true)])
  ]

  /** The options marked disqualifying, written out question by question. */
  predicate InDisqualifyingTable(questionId: string, answer: string) {
    || (questionId == "age" && (answer == "under18" || answer == "over65"))
    || (questionId == "weight" && answer == "under50")
    || (questionId == "health" && answer == "no")
    || (questionId == "medications" && answer == "restricted")
    || (questionId == "lastDonation" && answer == "recent")
  }

  function QuestionIds(): set<string> {
    set q | q in Questions :: q.id
  }

  /** Looks up the option by value; a missing option does not disqualify. */
  predicate ChoiceDisqualifies(q: Question, answer: string) {
    match FirstWhere(q.options, (o: Choice) => o.value == answer)
    case None => false
    case Some(o) => o.disqualifying
  }

  /** Looks up the question by id, then the option; a missing question does
      not disqualify. */
  predicate Disqualifies(questionId: string, answer: string) {
    match FirstWhere(Questions, (q: Question) => q.id == questionId)
    case None => false
    case Some(q) => ChoiceDisqualifies(q, answer)
  }

  /** `find` returns the one element that satisfies the predicate. */
  lemma FindUnique<T(!new)>(s: seq<T>, p: T -> bool, i: nat)
    requires i < |s| && p(s[i])
    requires forall j :: 0 <= j < |s| && p(s[j]) ==> j == i
    ensures FirstWhere(s, p) == Some(s[i])
  {
  }

  /** In a question whose option values are distinct, the option lookup
      finds the option with that value, if any. */
  lemma ChoiceLookup(q: Question, answer: string)
    requires forall j, k :: 0 <= j < k < |q.options| ==> q.options[j].value != q.options[k].value
    ensures ChoiceDisqualifies(q, answer) <==>
      exists k :: 0 <= k < |q.options| && q.options[k].value == answer && q.options[k].disqualifying
  {
    var fo := (o: Choice) => o.value == answer;
    if k :| 0 <= k < |q.options| && q.options[k].value == answer {
      FindUnique(q.options, fo, k);
    } else {
      assert forall o :: o in q.options ==> !fo(o);
    }
  }

  /** Question ids are distinct, so the question lookup finds the one asked. */
  lemma QuestionLookup(i: nat)
    requires i < |Questions|
    ensures FirstWhere(Questions, (q: Question) => q.id == Questions[i].id) == Some(Questions[i])
  {
    FindUnique(Questions, (q: Question) => q.id == Questions[i].id, i);
  }

  /** The options of question `i` marked disqualifying are the table's row for it. */
  lemma TableRow(i: nat, answer: string)
    requires i < |Questions|
    ensures (exists k :: 0 <= k < |Questions[i].options| && Questions[i].options[k].value == answer && Questions[i].options[k].disqualifying)
      <==> InDisqualifyingTable(Questions[i].id, answer)
  {
    var os := Questions[i].options;
    if InDisqualifyingTable(Questions[i].id, answer) {
      var k := if i == 0 && answer == "under18" then 0 else if i == 1 then 0 else if i == 2 then 1 else 2;
      assert os[k].value == answer && os[k].disqualifying;
    }
    if k :| 0 <= k < |os| && os[k].value == answer && os[k].disqualifying {
      assert InDisqualifyingTable(Questions[i].id, os[k].value);
    }
  }

  /** The lookup agrees with the table of disqualifying options. */
  lemma DisqualifiesExactly(questionId: string, answer: string)
    ensures Disqualifies(questionId, answer) <==> InDisqualifyingTable(questionId, answer)
  {
    if i :| 0 <= i < |Questions| && Questions[i].id == questionId {
      QuestionLookup(i);
      ChoiceLookup(Questions[i], answer);
      TableRow(i, answer);
    } else {
      assert forall q :: q in Questions ==> q.id != questionId;
    }
  }

  /** The answered questions whose answer disqualifies. */
  function DisqualifyingAnswers(answers: map<string, string>): (r: set<string>)
    ensures r <= answers.Keys
    ensures forall k :: k in r <==> k in answers && Disqualifies(k, answers[k])
  {
    set k | k in answers && Disqualifies(k, answers[k])
  }

  /** `Math.max(0, 100 - 25 * count)`. */
  function Score(count: nat): (r: int)
    ensures r in {100, 75, 50, 25, 0}
    ensures r == 100 <==> count == 0
    ensures count <= 4 ==> r == 100 - 25 * count
    ensures count >= 4 ==> r == 0
  {
    if 100 - 25 * count < 0 then 0 else 100 - 25 * count
  }

  /** Fewer disqualifying answers never lower the score. */
  lemma ScoreAntitone(a: nat, b: nat)
    requires a <= b
    ensures Score(b) <= Score(a)
  {
  }

  /** The completion view's check: every recorded answer is acceptable. */
  predicate EveryAnswerAcceptable(answers: map<string, string>) {
    forall k :: k in answers ==> !Disqualifies(k, answers[k])
  }

  /** The completion view shows "eligible" exactly when the scoring counted
      no disqualifying answer, so the two computations never disagree. */
  lemma CompletionViewAgrees(answers: map<string, string>)
    ensures EveryAnswerAcceptable(answers) <==> |DisqualifyingAnswers(answers)| == 0
  {
    var d := DisqualifyingAnswers(answers);
    if !EveryAnswerAcceptable(answers) {
      var k :| k in answers && Disqualifies(k, answers[k]);
      assert k in d;
    }
  }

  /** What `onComplete` is called with. */
  datatype Outcome = Outcome(eligible: bool, score: int)

  function Completion(answers: map<string, string>): (r: Outcome)
    ensures r.eligible <==> EveryAnswerAcceptable(answers)
    ensures r.eligible <==> r.score == 100
    ensures r.score == Score(|DisqualifyingAnswers(answers)|)
    ensures r.eligible <==> forall k :: k in answers ==> !InDisqualifyingTable(k, answers[k])
  {
    var n := |DisqualifyingAnswers(answers)|;
    CompletionViewAgrees(answers);
    forall k | k in answers {
      DisqualifiesExactly(k, answers[k]);
    }
    Outcome(n == 0, Score(n))
  }

  class Quiz {
    var currentQuestion: int
    var answers: map<string, string>
    var isComplete: bool
    /** The calls made to `onComplete`, in order. */
    var reported: seq<Outcome>

    ghost predicate Valid()
      reads this
    {
      0 <= currentQuestion < |Questions| && answers.Keys <= QuestionIds()
    }

    constructor ()
      ensures Valid()
      ensures currentQuestion == 0 && answers == map[] && !isComplete && reported == []
    {
      currentQuestion := 0;
      answers := map[];
      isComplete := false;
      reported := [];
    }

    /** The Next button is disabled while the current question has no
        (non-empty) answer. */
    predicate NextDisabled()
      requires Valid()
      reads this
    {
      var id := Questions[currentQuestion].id;
      id !in answers || answers[id] == ""
    }

    /** `handleAnswer`: records the answer to the current question only,
        replacing any earlier answer to it. */
    method HandleAnswer(value: string)
      requires Valid()
      modifies this
      ensures Valid()
      ensures answers == old(answers)[Questions[currentQuestion].id := value]
      ensures forall k :: k in old(answers) && k != Questions[currentQuestion].id ==> k in answers && answers[k] == old(answers)[k]
      ensures currentQuestion == old(currentQuestion) && isComplete == old(isComplete) && reported == old(reported)
      ensures value != "" ==> !NextDisabled()
    {
      answers := answers[Questions[currentQuestion].id := value];
    }

    /** `handleNext`: moves to the next question, or on the last one scores
        the answers, marks the quiz complete and reports the outcome. */
    method HandleNext()
      requires Valid()
      modifies this
      ensures Valid()
      ensures answers == old(answers)
      ensures old(currentQuestion) < |Questions| - 1 ==>
        currentQuestion == old(currentQuestion) + 1 && isComplete == old(isComplete) && reported == old(reported)
      ensures old(currentQuestion) == |Questions| - 1 ==>
        && currentQuestion == old(currentQuestion) && isComplete
        && reported == old(reported) + [Completion(answers)]
        && (reported[|reported| - 1].eligible <==> EveryAnswerAcceptable(answers))
    {
      if currentQuestion < |Questions| - 1 {
        currentQuestion := currentQuestion + 1;
      } else {
        isComplete := true;
        reported := reported + [Completion(answers)];
      }
    }

    /** The Previous button: one question back, never before the first. */
    method Previous()
      requires Valid()
      modifies this
      ensures Valid()
      ensures currentQuestion == if old(currentQuestion) == 0 then 0 else old(currentQuestion) - 1
      ensures answers == old(answers) && isComplete == old(isComplete) && reported == old(reported)
    {
      currentQuestion := if currentQuestion - 1 < 0 then 0 else currentQuestion - 1;
    }
  }
}
