/**
 * The "students with a knowledge gap" dialog of one topic
 * (src/components/KnowledgeGapStudentModal.tsx): the severity of a student's deficit,
 * the ranking by deficit, and the three severity counts.
 */
module KnowledgeGapStudent {
  import opened Seqs
  import opened Sorting

  datatype StudentGap = StudentGap(
    id: string, name: string, deficitPercentage: real, questionsCorrect: seq<string>,
    questionsIncorrect: seq<string>, examples: seq<string>, group: string)

  datatype KnowledgeTopic = KnowledgeTopic(
    id: string, name: string, masteryRate: real, questions: seq<string>,
    studentsWithGaps: seq<StudentGap>)

  /** The three severities `getSeverityLevel` tells apart. */
  datatype Severity = Critical | NeedsPractice | NeedsReminder

  function Label(v: Severity): string {
    match v
    case Critical => "Nghiêm trọng"
    case NeedsPractice => "Cần luyện tập"
    case NeedsReminder => "Cần nhắc nhở"
  }

  function Colour(v: Severity): string {
    match v
    case Critical => "text-danger border-danger bg-danger/10"
    case NeedsPractice => "text-warning border-warning bg-warning/10"
    case NeedsReminder => "text-primary border-primary bg-primary/10"
  }

  /** A badge's label tells its severity. */
  lemma LabelsDistinct(v: Severity, w: Severity)
    ensures Label(v) == Label(w) ==> v == w
  {
  }

  /** `getSeverityLevel(deficit)`: critical from 80, needs practice from 60. */
  function SeverityLevel(deficit: real): (r: Severity)
    ensures r == Critical <==> deficit >= 80.0
    ensures r == NeedsPractice <==> 60.0 <= deficit < 80.0
    ensures r == NeedsReminder <==> deficit < 60.0
  {
    if deficit >= 80.0 then Critical
    else if deficit >= 60.0 then NeedsPractice
    else NeedsReminder
  }

  function Deficit(s: StudentGap): real { s.deficitPercentage }

  /** `[...studentsWithGaps].sort((a, b) => b.deficitPercentage - a.deficitPercentage)`: a
      sorted copy, largest deficit first, ties in their original order. */
  function SortedStudents(topic: KnowledgeTopic): (r: seq<StudentGap>)
    ensures SortedDesc(r, Deficit)
    ensures multiset(r) == multiset(topic.studentsWithGaps)
    ensures forall v :: Filter(r, KeyIs(Deficit, v)) == Filter(topic.studentsWithGaps, KeyIs(Deficit, v))
  {
    var s := topic.studentsWithGaps;
    SortDescSorted(s, Deficit);
    SortDescPermutes(s, Deficit);
    assert forall v :: Filter(SortDesc(s, Deficit), KeyIs(Deficit, v)) == Filter(s, KeyIs(Deficit, v)) by {
      forall v
        ensures Filter(SortDesc(s, Deficit), KeyIs(Deficit, v)) == Filter(s, KeyIs(Deficit, v))
      {
        SortDescStable(s, Deficit, v);
      }
    }
    SortDesc(s, Deficit)
  }

  /** The rank badge `#k` beside each card of the sorted list. */
  function Ranked(sorted: seq<StudentGap>): seq<(nat, StudentGap)> {
    seq(|sorted|, k requires 0 <= k < |sorted| => (k + 1, sorted[k]))
  }

  /** The ranks run 1..n down the list, a higher rank never has a larger deficit, and
      rank 1 goes to a student with the largest deficit in the topic. */
  lemma RankOrder(topic: KnowledgeTopic)
    ensures |Ranked(SortedStudents(topic))| == |topic.studentsWithGaps|
    ensures forall k :: 0 <= k < |Ranked(SortedStudents(topic))| ==> Ranked(SortedStudents(topic))[k].0 == k + 1
    ensures forall k, l :: 0 <= k < l < |Ranked(SortedStudents(topic))| ==>
              Ranked(SortedStudents(topic))[k].1.deficitPercentage >= Ranked(SortedStudents(topic))[l].1.deficitPercentage
    ensures |topic.studentsWithGaps| > 0 ==>
              forall s :: s in topic.studentsWithGaps ==>
                Ranked(SortedStudents(topic))[0].1.deficitPercentage >= s.deficitPercentage
  {
    var r := SortedStudents(topic);
    assert |multiset(r)| == |multiset(topic.studentsWithGaps)|;
    forall s | s in topic.studentsWithGaps
      ensures |r| > 0 && r[0].deficitPercentage >= s.deficitPercentage
    {
      assert s in multiset(r);
      var k :| 0 <= k < |r| && r[k] == s;
      if k > 0 {
        assert Deficit(r[0]) >= Deficit(r[k]);
      }
    }
    forall k, l | 0 <= k < l < |r|
      ensures r[k].deficitPercentage >= r[l].deficitPercentage
    {
      assert Deficit(r[k]) >= Deficit(r[l]);
    }
  }

  function IsCritical(s: StudentGap): bool { s.deficitPercentage >= 80.0 }
  function IsPractice(s: StudentGap): bool { s.deficitPercentage >= 60.0 && s.deficitPercentage < 80.0 }
  function IsReminder(s: StudentGap): bool { s.deficitPercentage < 60.0 }

  function HasSeverity(v: Severity): StudentGap -> bool {
    (s: StudentGap) => SeverityLevel(s.deficitPercentage) == v
  }

  /** The three summary figures under the list. */
  datatype SeveritySummary = SeveritySummary(critical: nat, practice: nat, reminder: nat)

  /** The summary over the sorted list: the counts add up to the number of students, and each
      is the number of students whose card shows that severity, in the topic as given. */
  function SummaryOf(topic: KnowledgeTopic): (r: SeveritySummary)
    ensures r.critical + r.practice + r.reminder == |topic.studentsWithGaps|
    ensures r.critical == |Filter(topic.studentsWithGaps, HasSeverity(Critical))|
    ensures r.practice == |Filter(topic.studentsWithGaps, HasSeverity(NeedsPractice))|
    ensures r.reminder == |Filter(topic.studentsWithGaps, HasSeverity(NeedsReminder))|
  {
    var sorted := SortedStudents(topic);
    SummaryBands(sorted);
    FilterCountPermutation(sorted, topic.studentsWithGaps, HasSeverity(Critical));
    FilterCountPermutation(sorted, topic.studentsWithGaps, HasSeverity(NeedsPractice));
    FilterCountPermutation(sorted, topic.studentsWithGaps, HasSeverity(NeedsReminder));
    assert |multiset(sorted)| == |multiset(topic.studentsWithGaps)|;
    SeveritySummary(|Filter(sorted, IsCritical)|, |Filter(sorted, IsPractice)|, |Filter(sorted, IsReminder)|)
  }

  /** The thresholds of the summary agree with `getSeverityLevel`, and every student falls in
      exactly one of them. */
  lemma SummaryBands(s: seq<StudentGap>)
    ensures |Filter(s, IsCritical)| + |Filter(s, IsPractice)| + |Filter(s, IsReminder)| == |s|
    ensures Filter(s, IsCritical) == Filter(s, HasSeverity(Critical))
    ensures Filter(s, IsPractice) == Filter(s, HasSeverity(NeedsPractice))
    ensures Filter(s, IsReminder) == Filter(s, HasSeverity(NeedsReminder))
  {
    FilterPartition3(s, IsCritical, IsPractice, IsReminder);
    FilterExt(s, IsCritical, HasSeverity(Critical));
    FilterExt(s, IsPractice, HasSeverity(NeedsPractice));
    FilterExt(s, IsReminder, HasSeverity(NeedsReminder));
  }
}
