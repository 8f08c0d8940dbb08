/**
 * The topic mastery chart (src/components/TopicChart.tsx): the colour of a difficulty, the
 * colour of a mastery rate, and the list of topics that need attention.
 */
module TopicChart {
  import opened Seqs

  datatype Difficulty = Easy | Medium | Hard

  datatype Topic = Topic(name: string, masteryRate: real, difficulty: string)

  /** The difficulty labels the chart knows, as they appear in the data. */
  function DifficultyLabel(d: Difficulty): string {
    match d
    case Easy => "Dễ"
    case Medium => "Trung bình"
    case Hard => "Khó"
  }

  const FallbackDifficultyColour := "text-muted-foreground"

  /** `getDifficultyColor(difficulty)`. */
  function DifficultyColour(difficulty: string): string {
    if difficulty == "Dễ" then "text-success"
    else if difficulty == "Trung bình" then "text-warning"
    else if difficulty == "Khó" then "text-danger"
    else FallbackDifficultyColour
  }

  /** The lookup is total: each known label has its own colour, none of them the fallback,
      and every other string gets the fallback. */
  lemma DifficultyColours(d: Difficulty, e: Difficulty, other: string)
    ensures d != e ==> DifficultyColour(DifficultyLabel(d)) != DifficultyColour(DifficultyLabel(e))
    ensures DifficultyColour(DifficultyLabel(d)) != FallbackDifficultyColour
    ensures (forall k: Difficulty :: other != DifficultyLabel(k)) ==> DifficultyColour(other) == FallbackDifficultyColour
  {
    assert "text-success"[5] == 's' && "text-warning"[5] == 'w' && "text-danger"[5] == 'd';
    assert FallbackDifficultyColour[5] == 'm';
    if forall k: Difficulty :: other != DifficultyLabel(k) {
      assert other != DifficultyLabel(Easy) && other != DifficultyLabel(Medium) && other != DifficultyLabel(Hard);
    }
  }

  /** The three colours `getMasteryColor` tells apart. */
  datatype MasteryColour = Success | Warning | Danger

  /** `getMasteryColor(rate)`: success from 80, warning from 60. */
  function MasteryColourOf(rate: real): (r: MasteryColour)
    ensures r == Success <==> rate >= 80.0
    ensures r == Warning <==> 60.0 <= rate < 80.0
    ensures r == Danger <==> rate < 60.0
  {
    if rate >= 80.0 then Success
    else if rate >= 60.0 then Warning
    else Danger
  }

  function NeedsAttention(t: Topic): bool { t.masteryRate < 60.0 }

  /** `topics.filter(topic => topic.masteryRate < 60)`: the topics under 60%, in the order
      given. A topic is listed exactly when its rate is shown in the danger colour, and the
      list is a subsequence of the topics. */
  function AttentionList(topics: seq<Topic>): (r: seq<Topic>)
    ensures |r| <= |topics|
    ensures forall t :: t in r <==> t in topics && MasteryColourOf(t.masteryRate) == Danger
    ensures Subsequence(r, topics)
  {
    forall t
      ensures t in Filter(topics, NeedsAttention) <==> t in topics && NeedsAttention(t)
    {
      FilterMember(topics, NeedsAttention, t);
    }
    FilterIsSubsequence(topics, NeedsAttention);
    Filter(topics, NeedsAttention)
  }

  /** A topic below 60% is always listed. */
  lemma AttentionBounds(topics: seq<Topic>, i: nat)
    requires i < |topics|
    ensures topics[i].masteryRate < 60.0 ==> topics[i] in AttentionList(topics)
  {
  }

  /** With every topic at 60% or more (in particular with no topics), nothing needs
      attention. */
  lemma NoAttentionNeeded(topics: seq<Topic>)
    ensures (forall k :: 0 <= k < |topics| ==> topics[k].masteryRate >= 60.0) <==> AttentionList(topics) == []
  {
    if forall k :: 0 <= k < |topics| ==> topics[k].masteryRate >= 60.0 {
      FilterNone(topics, NeedsAttention);
    } else {
      var k :| 0 <= k < |topics| && topics[k].masteryRate < 60.0;
      assert topics[k] in topics;
    }
  }
}
