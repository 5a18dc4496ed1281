/** The study panel (src/components/jarvis/StudyAssistant.tsx): the topic
    record and the views the panel derives from the topic list. */
module StudyAssistant {
  import opened Seqs

  datatype TopicStatus = NotStarted | InProgress | Completed

  /** A study topic; `progress` is a percentage. */
  datatype Topic = Topic(id: string, name: string, subject: string, status: TopicStatus, progress: int)

  function SubjectIs(subject: string): Topic -> bool
  {
    (t: Topic) => t.subject == subject
  }

  predicate IsCompleted(t: Topic) { t.status == Completed }

  predicate IsNotCompleted(t: Topic) { t.status != Completed }

  /** `filteredTopics`: all topics when no subject is selected (null or the
      empty string, both falsy), otherwise exactly the topics of that
      subject in their original order. */
  function FilteredTopics(topics: seq<Topic>, selectedSubject: Option<string>): (r: seq<Topic>)
    ensures selectedSubject.None? || selectedSubject.value == "" ==> r == topics
    ensures selectedSubject.Some? && selectedSubject.value != "" ==>
              forall t :: multiset(r)[t] == if t.subject == selectedSubject.value then multiset(topics)[t] else 0
    ensures IsSubsequence(r, topics)
  {
    if selectedSubject.Some? && selectedSubject.value != "" then
      FilterIsSubsequence(SubjectIs(selectedSubject.value), topics);
      Filter(SubjectIs(selectedSubject.value), topics)
    else
      FilterAll((_: Topic) => true, topics);
      FilterIsSubsequence((_: Topic) => true, topics);
      topics
  }

  /** `completedCount`: the number of completed topics. */
  function CompletedCount(topics: seq<Topic>): (r: nat)
    ensures r == |set i | 0 <= i < |topics| && topics[i].status == Completed|
    ensures r <= |topics|
    ensures r == 0 <==> forall i :: 0 <= i < |topics| ==> topics[i].status != Completed
    ensures r == |topics| <==> forall i :: 0 <= i < |topics| ==> topics[i].status == Completed
  {
    FilterPartition(IsCompleted, IsNotCompleted, topics);
    FilterCountsPositions(IsCompleted, topics);
    assert Positions(IsCompleted, topics) == set i | 0 <= i < |topics| && topics[i].status == Completed;
    assert forall i :: 0 <= i < |topics| ==> topics[i] in topics;
    |Filter(IsCompleted, topics)|
  }

  /** `overallProgress`: the completed share as a percentage, and 0 for an
      empty list. Computed on exact rationals rather than floating point. */
  function OverallProgress(topics: seq<Topic>): (r: real)
    ensures |topics| == 0 ==> r == 0.0
    ensures 0.0 <= r <= 100.0
    ensures |topics| > 0 ==> (r == 100.0 <==> forall i :: 0 <= i < |topics| ==> topics[i].status == Completed)
  {
    if |topics| > 0 then
      var done, total := CompletedCount(topics), |topics|;
      Percent(done, total)
    else 0.0
  }

  /** `part / whole * 100` for a part of a positive whole: it times the
      whole is a hundred times the part, it lies in [0, 100], and it is 100
      exactly when the part is the whole. */
  function Percent(part: nat, whole: nat): (q: real)
    requires part <= whole && whole > 0
    ensures q * (whole as real) == 100.0 * (part as real)
    ensures 0.0 <= q <= 100.0
    ensures q == 100.0 <==> part == whole
  {
    var p, w := part as real, whole as real;
    var share := p / w;
    assert share * w == p;
    assert 0.0 <= share <= 1.0;
    assert share * 100.0 * w == 100.0 * (share * w);
    assert share * 100.0 == 100.0 ==> share == 1.0;
    assert share == 1.0 <==> p == w;
    share * 100.0
  }
}
