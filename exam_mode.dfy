/** The quiz screen (src/components/jarvis/ExamMode.tsx): a session that
    moves through the stages setup, loading, quiz and results. The quiz
    service is outside the model; its answer is an input of the step that
    receives it. Clock readings are parameters in milliseconds. */
module ExamMode {
  import opened Seqs
  import opened JsText
  import opened StudyAssistant

  datatype Stage = Setup | Loading | Quiz | Results

  datatype Difficulty = Easy | Medium | Hard

  /** The four option keys a question offers. */
  datatype Choice = A | B | C | D

  datatype Options = Options(a: string, b: string, c: string, d: string)

  datatype Question = Question(id: int, question: string, options: Options, correctAnswer: Choice, explanation: string)

  datatype AnswerRecord = AnswerRecord(questionId: int, answer: Choice, correct: bool)

  /** The body sent to the quiz service. */
  datatype QuizRequest = QuizRequest(topic: string, subject: string, difficulty: Difficulty, questionCount: nat)

  /** What the quiz service answered: a failure status with the `error`
      field of its body ("" when absent), or a success body whose
      `questions` field may be missing. */
  datatype QuizReply = Failed(error: string) | Received(questions: Option<seq<Question>>)

  /** `difficultyConfig[d].questions`: how many questions each level asks
      for. */
  function QuestionCount(d: Difficulty): (n: nat)
    ensures 5 <= n <= 10
  {
    match d
    case Easy => 5
    case Medium => 7
    case Hard => 10
  }

  /** Harder levels ask for strictly more questions. */
  lemma QuestionCountIncreases()
    ensures QuestionCount(Easy) < QuestionCount(Medium) < QuestionCount(Hard)
  {
  }

  predicate IsStarted(t: Topic) { t.status == InProgress || t.status == Completed }

  /** `inProgressTopics`: the topics that can be quizzed, those in progress
      or completed, in their original order. */
  function InProgressTopics(topics: seq<Topic>): (r: seq<Topic>)
    ensures forall t :: t in r <==> t in topics && t.status != NotStarted
    ensures forall t :: multiset(r)[t] == if t.status != NotStarted then multiset(topics)[t] else 0
    ensures IsSubsequence(r, topics)
  {
    FilterIsSubsequence(IsStarted, topics);
    Filter(IsStarted, topics)
  }

  function IsNot(id: string): string -> bool
  {
    (x: string) => x != id
  }

  /** `toggleTopic`: remove every copy of the id if it is selected, otherwise
      append it at the end. */
  function ToggleTopic(prev: seq<string>, id: string): (r: seq<string>)
    ensures id in prev ==> id !in r && forall x :: x != id ==> multiset(r)[x] == multiset(prev)[x]
    ensures id in prev ==> IsSubsequence(r, prev)
    ensures id !in prev ==> r == prev + [id]
    ensures id in r <==> id !in prev
  {
    if id in prev then
      FilterIsSubsequence(IsNot(id), prev);
      Filter(IsNot(id), prev)
    else prev + [id]
  }

  /** Toggling the same id twice restores which ids are selected. */
  lemma ToggleTopicTwice(prev: seq<string>, id: string)
    ensures forall x :: x in ToggleTopic(ToggleTopic(prev, id), id) <==> x in prev
  {
  }

  /** A selection without repeats never gains one. */
  lemma ToggleTopicKeepsNoDuplicates(prev: seq<string>, id: string)
    requires NoDuplicates(prev)
    ensures NoDuplicates(ToggleTopic(prev, id))
  {
    if id in prev {
      FilterKeepsNoDuplicates(IsNot(id), prev);
    }
  }

  /** `topics.find((t) => t.id === id)`: the first topic with the id. */
  function FindTopic(topics: seq<Topic>, id: string): (r: Option<Topic>)
    ensures r.Some? ==> r.value in topics && r.value.id == id
    ensures r.Some? ==>
              exists k :: 0 <= k < |topics| && topics[k] == r.value && forall j :: 0 <= j < k ==> topics[j].id != id
    ensures r.None? <==> forall i :: 0 <= i < |topics| ==> topics[i].id != id
  {
    if topics == [] then None
    else if topics[0].id == id then Some(topics[0])
    else
      var r := FindTopic(topics[1..], id);
      assert r.Some? ==>
               exists k :: 0 <= k < |topics| && topics[k] == r.value && forall j :: 0 <= j < k ==> topics[j].id != id
      by {
        if r.Some? {
          var rest := topics[1..];
          var k :| 0 <= k < |rest| && rest[k] == r.value && forall j :: 0 <= j < k ==> rest[j].id != id;
          assert topics[k + 1] == r.value;
          forall j | 1 <= j < k + 1 ensures topics[j].id != id {
            assert topics[j] == rest[j - 1];
          }
        }
      }
      r
  }

  /** The label of one selected topic in the request: "name (subject)", or
      "" for an id no topic has. */
  function TopicLabel(topics: seq<Topic>, id: string): string
  {
    match FindTopic(topics, id)
    case Some(t) => t.name + " (" + t.subject + ")"
    case None => ""
  }

  /** `parts.join(sep)`. */
  function Join(parts: seq<string>, sep: string): string
  {
    if parts == [] then ""
    else if |parts| == 1 then parts[0]
    else parts[0] + sep + Join(parts[1..], sep)
  }

  /** The request `startExam` sends for the selected topics. */
  function QuizRequestFor(topics: seq<Topic>, selected: seq<string>, difficulty: Difficulty): (q: QuizRequest)
    ensures q.questionCount == QuestionCount(difficulty) && q.difficulty == difficulty
    ensures q.subject == "Engineering"
  {
    QuizRequest(Join(seq(|selected|, i requires 0 <= i < |selected| => TopicLabel(topics, selected[i])), ", "),
                "Engineering", difficulty, QuestionCount(difficulty))
  }

  /** `formatTime(ms)`: whole minutes, a colon, then the remaining seconds
      padded to two digits. */
  function FormatTime(ms: nat): string
  {
    var seconds := ms / 1000;
    var minutes := seconds / 60;
    var remainingSeconds := seconds % 60;
    NatToString(minutes) + ":" + PadStart(NatToString(remainingSeconds), 2, '0')
  }

  /** The displayed time ends in a colon and two digits, and reading the
      minutes and seconds back gives the whole seconds elapsed. */
  lemma {:induction false} FormatTimeReadsBack(ms: nat)
    ensures var t := FormatTime(ms);
            && |t| >= 4 && t[|t| - 3] == ':' && IsDigit(t[|t| - 2]) && IsDigit(t[|t| - 1])
            && ParseNat(t[|t| - 2..]) < 60
            && ParseNat(t[..|t| - 3]) * 60 + ParseNat(t[|t| - 2..]) == ms / 1000
  {
    var t := FormatTime(ms);
    var seconds := ms / 1000;
    var m := NatToString(seconds / 60);
    var s := NatToString(seconds % 60);
    var padded := PadStart(s, 2, '0');
    ParseNatToString(seconds / 60);
    ParseNatToString(seconds % 60);
    assert t == m + ":" + padded;
    if seconds % 60 < 10 {
      assert |s| == 1;
      assert padded == ['0'] + s;
      ParseNatLeadingZero(s);
    } else {
      assert |s| == 2 by {
        assert NatToString(seconds % 60) == NatToString(seconds % 60 / 10) + [DigitChar(seconds % 60 % 10)];
      }
    }
    assert t[..|t| - 3] == m;
    assert t[|t| - 2..] == padded;
  }

  /** The number of records that were answered correctly. */
  function CountCorrect(answers: seq<AnswerRecord>): (n: nat)
    ensures n <= |answers|
  {
    if answers == [] then 0
    else CountCorrect(answers[..|answers| - 1]) + (if answers[|answers| - 1].correct then 1 else 0)
  }

  /** The state of one quiz screen. */
  class ExamSession {
    var stage: Stage
    var selectedTopics: seq<string>
    var difficulty: Difficulty
    var questions: seq<Question>
    var currentQuestion: nat
    var selectedAnswer: Option<Choice>
    var showExplanation: bool
    var score: nat
    var answers: seq<AnswerRecord>
    var startTime: Option<nat>
    var endTime: Option<nat>

    /** The session invariant: the score counts the correct records, there
        is at most one record per question reached, the question index is in
        range during the quiz, and nothing of a quiz exists before one has
        been received. */
    ghost predicate Valid()
      reads this
    {
      && score == CountCorrect(answers)
      && score <= |answers| <= |questions|
      && (stage == Setup || stage == Loading ==>
            questions == [] && answers == [] && currentQuestion == 0 && selectedAnswer.None? && !showExplanation)
      && (stage == Quiz ==> currentQuestion < |questions|)
      && (stage == Quiz ==> showExplanation == selectedAnswer.Some?)
      && (stage == Quiz ==> |answers| <= currentQuestion + (if selectedAnswer.Some? then 1 else 0))
      && (stage == Results ==> currentQuestion == |questions| - 1)
    }

    /** The initial state of the screen. */
    constructor ()
      ensures Valid()
      ensures stage == Setup && selectedTopics == [] && difficulty == Medium && questions == []
      ensures currentQuestion == 0 && selectedAnswer == None && !showExplanation
      ensures score == 0 && answers == [] && startTime == None && endTime == None
    {
      stage := Setup;
      selectedTopics := [];
      difficulty := Medium;
      questions := [];
      currentQuestion := 0;
      selectedAnswer := None;
      showExplanation := false;
      score := 0;
      answers := [];
      startTime := None;
      endTime := None;
    }

    /** Clicking a topic in the setup list. */
    method ToggleTopicSelection(id: string)
      requires Valid()
      modifies this`selectedTopics
      ensures Valid()
      ensures selectedTopics == ToggleTopic(old(selectedTopics), id)
    {
      selectedTopics := ToggleTopic(selectedTopics, id);
    }

    /** Clicking a difficulty button. */
    method SetDifficulty(d: Difficulty)
      requires Valid()
      modifies this`difficulty
      ensures Valid() && difficulty == d
    {
      difficulty := d;
    }

    /** The first half of `startExam`, up to sending the request: with no
        topic selected nothing happens and no request is made; otherwise the
        screen shows the loading stage, records the start time and sends the
        request for the selected topics. */
    method StartExam(topics: seq<Topic>, now: nat) returns (request: Option<QuizRequest>)
      requires Valid() && stage == Setup
      modifies this`stage, this`startTime
      ensures Valid()
      ensures old(selectedTopics) == [] ==> request == None && stage == Setup && startTime == old(startTime)
      ensures old(selectedTopics) != [] ==>
                && request == Some(QuizRequestFor(topics, selectedTopics, difficulty))
                && request.value.questionCount == QuestionCount(difficulty)
                && stage == Loading && startTime == Some(now)
    {
      if |selectedTopics| == 0 {
        request := None;
        return;
      }
      stage := Loading;
      startTime := Some(now);
      request := Some(QuizRequestFor(topics, selectedTopics, difficulty));
    }

    /** The second half of `startExam`, when the service has answered: a
        non-empty question list starts the quiz; a failure, a missing list
        or an empty one returns to setup with an error notice. */
    method ReceiveQuiz(reply: QuizReply) returns (notice: Option<string>)
      requires Valid() && stage == Loading
      modifies this`stage, this`questions
      ensures Valid()
      ensures reply.Received? && reply.questions.Some? && reply.questions.value != [] ==>
                stage == Quiz && questions == reply.questions.value && notice == None
      ensures !(reply.Received? && reply.questions.Some? && reply.questions.value != []) ==>
                stage == Setup && questions == old(questions) && notice.Some?
      ensures reply.Failed? ==> notice == Some(if reply.error != "" then reply.error else "Failed to generate questions")
      ensures reply.Received? && (reply.questions.None? || reply.questions.value == []) ==> notice == Some("No questions received")
    {
      match reply
      case Failed(error) =>
        notice := Some(if error != "" then error else "Failed to generate questions");
        stage := Setup;
      case Received(qs) =>
        if qs.None? || qs.value == [] {
          notice := Some("No questions received");
          stage := Setup;
        } else {
          notice := None;
          questions := qs.value;
          stage := Quiz;
        }
    }

    /** `handleAnswer`: ignored once an answer is selected; otherwise it
        selects the answer, records it, scores it when it is the correct
        one and shows the explanation. */
    method HandleAnswer(answer: Choice)
      requires Valid() && stage == Quiz
      modifies this`selectedAnswer, this`score, this`answers, this`showExplanation
      ensures Valid()
      ensures old(selectedAnswer).Some? ==>
                selectedAnswer == old(selectedAnswer) && score == old(score) && answers == old(answers)
                && showExplanation == old(showExplanation)
      ensures old(selectedAnswer).None? ==>
                var q := questions[currentQuestion];
                && selectedAnswer == Some(answer) && showExplanation
                && answers == old(answers) + [AnswerRecord(q.id, answer, answer == q.correctAnswer)]
                && score == old(score) + (if answer == q.correctAnswer then 1 else 0)
    {
      if selectedAnswer.Some? {
        return;
      }
      selectedAnswer := Some(answer);
      var isCorrect := answer == questions[currentQuestion].correctAnswer;
      if isCorrect {
        score := score + 1;
      }
      var record := AnswerRecord(questions[currentQuestion].id, answer, isCorrect);
      assert (answers + [record])[..|answers|] == answers;
      answers := answers + [record];
      showExplanation := true;
    }

    /** `nextQuestion`: before the last question it moves on and clears the
        answer; at the last one it records the end time, shows the results
        and reports the score and the number of questions. */
    method NextQuestion(now: nat) returns (completed: Option<(nat, nat)>)
      requires Valid() && stage == Quiz
      modifies this`currentQuestion, this`selectedAnswer, this`showExplanation, this`endTime, this`stage
      ensures Valid()
      ensures old(currentQuestion) < |questions| - 1 ==>
                && stage == Quiz && currentQuestion == old(currentQuestion) + 1
                && selectedAnswer == None && !showExplanation && endTime == old(endTime) && completed == None
      ensures old(currentQuestion) >= |questions| - 1 ==>
                && stage == Results && currentQuestion == old(currentQuestion)
                && selectedAnswer == old(selectedAnswer) && showExplanation == old(showExplanation)
                && endTime == Some(now) && completed == Some((score, |questions|))
    {
      if currentQuestion < |questions| - 1 {
        currentQuestion := currentQuestion + 1;
        selectedAnswer := None;
        showExplanation := false;
        completed := None;
      } else {
        endTime := Some(now);
        stage := Results;
        completed := Some((score, |questions|));
      }
    }

    /** `restartExam`: every field back to its initial value except the
        difficulty, which the source does not reset. */
    method RestartExam()
      requires Valid()
      modifies this
      ensures Valid()
      ensures stage == Setup && selectedTopics == [] && questions == []
      ensures currentQuestion == 0 && selectedAnswer == None && !showExplanation
      ensures score == 0 && answers == [] && startTime == None && endTime == None
      ensures difficulty == old(difficulty)
    {
      stage := Setup;
      selectedTopics := [];
      questions := [];
      currentQuestion := 0;
      selectedAnswer := None;
      showExplanation := false;
      score := 0;
      answers := [];
      startTime := None;
      endTime := None;
    }
  }
}
