/** The suggestion rule engine of the teacher dashboard: six trigger rules are checked
    against a class snapshot, every rule that fires becomes one suggestion card, and the
    cards are ordered by priority, highest first. */
module ActionEngine {
  import opened Wrappers
  import opened Seqs
  import opened Text
  import opened Sorting

  // ---------------------------------------------------------------------------
  // Data model
  // ---------------------------------------------------------------------------

  datatype Student = Student(
    id: string, name: string, score: real, group: string,
    errors: seq<string>, previousScores: Option<seq<real>>)

  /** One row of the class-wide error summary. */
  datatype ErrorStat = ErrorStat(tag: string, count: int, percentage: real)

  datatype ClassData = ClassData(
    totalStudents: int, averageScore: real,
    students: seq<Student>, commonErrors: seq<ErrorStat>)

  /** A catalog entry; `actionType` is one of "class", "group", "individual", "parent". */
  datatype TriggerRule = TriggerRule(
    id: string, condition: string, suggestion: string, actionType: string,
    priority: int, estimatedImpact: string)

  /** A value captured in a fired rule's context. */
  datatype ContextValue = Str(s: string) | Num(n: int) | StudentList(students: seq<Student>)

  /** A context object, its entries in the order `Object.entries` reports them. */
  type Context = seq<(string, ContextValue)>

  datatype TriggerResult = NotMet | Met(context: Context)

  /** A suggestion card; `kind` is the card's `type` field. */
  datatype Suggestion = Suggestion(
    id: string, kind: string, title: string, description: string, action: string,
    icon: string, priority: int, triggerRule: string, affectedCount: int,
    estimatedImpact: string, autoGenerated: bool)

  // ---------------------------------------------------------------------------
  // The rule catalog
  // ---------------------------------------------------------------------------

  const CommonErrorId := "common_error_30_percent"
  const VarianceId := "high_score_variance"
  const GroupErrorId := "group_specific_error"
  const AtRiskId := "at_risk_student"
  const ImprovementId := "significant_improvement"
  const TopicId := "topic_mastery_high"

  // Each template is kept as the pieces around its placeholders.
  const CommonErrorHead := "Phần lớn lớp đang yếu về "
  const CommonErrorTail := ". Cân nhắc giảng lại & gửi" + " tài liệu cho cả lớp."
  const VarianceHead := "Lớp có sự chênh lệch lớn"
  const VarianceTail := ". Cân nhắc chia nhóm học" + " tập hỗ trợ nhau."
  const GroupHead := "Nhiều học sinh trong nhóm "
  const GroupMiddle := " đang gặp vấn đề với "
  const GroupTail := ". Gửi bài luyện tập cho" + " nhóm này."
  const AtRiskHead := " có nguy cơ cao"
  const AtRiskTail := ". Cần gửi phản hồi chi tiết" + " và thông báo cho phụ huynh."
  const ImprovementHead := " đã rất tiến bộ"
  const ImprovementTail := ". Gửi lời khen ngợi để" + " động viên em."
  const TopicHead := "Lớp tiến bộ về "
  const TopicTail := ". Có thể nâng cao độ" + " khó bài tập."

  const CommonErrorRule := TriggerRule(
    CommonErrorId, "≥ 30% học sinh toàn lớp mắc cùng 1 lỗi cơ bản",
    CommonErrorHead + "{error}" + CommonErrorTail, "class", 9, "high")
  const VarianceRule := TriggerRule(
    VarianceId, "Độ phân hóa điểm của lớp quá cao (dựa trên độ lệch chuẩn)",
    VarianceHead + VarianceTail, "class", 7, "medium")
  const GroupErrorRule := TriggerRule(
    GroupErrorId, "≥ 40% học sinh trong một nhóm mắc cùng 1 lỗi",
    GroupHead + "{group}" + GroupMiddle + "{error}" + GroupTail, "group", 8, "high")
  const AtRiskRule := TriggerRule(
    AtRiskId, "Học sinh có điểm < 4 VÀ lặp lại cùng 1 lỗi ≥ 2 lần",
    "{student}" + AtRiskHead + AtRiskTail, "individual", 10, "high")
  const ImprovementRule := TriggerRule(
    ImprovementId, "Học sinh có tiến bộ vượt bậc (tăng > 2 điểm so với bài trước)",
    "{student}" + ImprovementHead + ImprovementTail, "individual", 5, "medium")
  const TopicRule := TriggerRule(
    TopicId, "≥ 90% học sinh nắm vững một chủ đề",
    TopicHead + "{topic}" + TopicTail, "class", 4, "medium")

  const TriggerRules: seq<TriggerRule> :=
    [CommonErrorRule, VarianceRule, GroupErrorRule, AtRiskRule, ImprovementRule, TopicRule]

  /** The topic rule has no topic data to look at and uses a fixed mastery rate. */
  const MockTopic := "Phương trình bậc hai"
  const MockTopicMastery := 95

  // ---------------------------------------------------------------------------
  // Score spread
  // ---------------------------------------------------------------------------

  function Sum(xs: seq<real>): real
    decreases |xs|
  {
    if |xs| == 0 then 0.0 else Sum(xs[..|xs| - 1]) + xs[|xs| - 1]
  }

  /** The sum of squared distances from `m`. */
  function SquaredDeviations(xs: seq<real>, m: real): (r: real)
    ensures r >= 0.0
    decreases |xs|
  {
    if |xs| == 0 then 0.0
    else
      var d := xs[|xs| - 1] - m;
      assert d * d >= 0.0;
      SquaredDeviations(xs[..|xs| - 1], m) + d * d
  }

  /** The population variance (divisor N). An empty list has none: the mean is 0/0, which
      is NaN, and every comparison with NaN is false. */
  function Variance(xs: seq<real>): (r: Option<real>)
    ensures r.Some? <==> |xs| > 0
    ensures r.Some? ==> r.value >= 0.0
  {
    if |xs| == 0 then None
    else Some(SquaredDeviations(xs, Sum(xs) / |xs| as real) / |xs| as real)
  }

  function Scores(students: seq<Student>): (r: seq<real>)
    ensures |r| == |students| && forall i :: 0 <= i < |r| ==> r[i] == students[i].score
  {
    seq(|students|, i requires 0 <= i < |students| => students[i].score)
  }

  // ---------------------------------------------------------------------------
  // Performance tiers
  // ---------------------------------------------------------------------------

  datatype Tier = Tier(name: string, members: seq<Student>)

  /** "Giỏi": score at least 8. */
  predicate Excellent(s: Student) { s.score >= 8.0 }
  /** "Khá": score in [6.5, 8). */
  predicate Good(s: Student) { s.score >= 6.5 && s.score < 8.0 }
  /** "TB": score in [5, 6.5). */
  predicate Average(s: Student) { s.score >= 5.0 && s.score < 6.5 }
  /** "Yếu": score below 5. */
  predicate Weak(s: Student) { s.score < 5.0 }

  const TierNames: seq<string> := ["Giỏi", "Khá", "TB", "Yếu"]

  /** The four tiers in the order their object literal lists them. */
  function GroupStudents(students: seq<Student>): seq<Tier> {
    [ Tier(TierNames[0], Filter(students, Excellent)), Tier(TierNames[1], Filter(students, Good)),
      Tier(TierNames[2], Filter(students, Average)), Tier(TierNames[3], Filter(students, Weak)) ]
  }

  /** The position of a score's tier in that order, by the score bands alone. */
  function TierOf(score: real): (k: nat)
    ensures k < 4
    ensures k == 0 <==> score >= 8.0
    ensures k == 1 <==> 6.5 <= score < 8.0
    ensures k == 2 <==> 5.0 <= score < 6.5
    ensures k == 3 <==> score < 5.0
  {
    if score >= 8.0 then 0 else if score >= 6.5 then 1 else if score >= 5.0 then 2 else 3
  }

  /** Every student is in exactly one tier: the one its score band names. */
  lemma TierMembership(students: seq<Student>, s: Student, k: nat)
    requires k < 4
    ensures s in GroupStudents(students)[k].members <==> s in students && TierOf(s.score) == k
  {
    var g := GroupStudents(students);
    FilterMember(students, Excellent, s);
    FilterMember(students, Good, s);
    FilterMember(students, Average, s);
    FilterMember(students, Weak, s);
  }

  /** The four tier sizes add up to the roster size. */
  lemma TierSizes(students: seq<Student>)
    ensures var g := GroupStudents(students);
      |g[0].members| + |g[1].members| + |g[2].members| + |g[3].members| == |students|
  {
    FilterPartition4(students, Excellent, Good, Average, Weak);
  }

  // ---------------------------------------------------------------------------
  // Tag tallies (an `errorCounts` dictionary)
  // ---------------------------------------------------------------------------

  /** The distinct tags of `xs` in the order they first appear: the key order of a
      dictionary filled by walking `xs`. */
  function FirstSeen(xs: seq<string>): seq<string>
    decreases |xs|
  {
    if |xs| == 0 then []
    else
      var f := FirstSeen(xs[..|xs| - 1]);
      if xs[|xs| - 1] in f then f else f + [xs[|xs| - 1]]
  }

  lemma {:induction false} FirstSeenMember(xs: seq<string>, t: string)
    ensures t in FirstSeen(xs) <==> t in xs
    decreases |xs|
  {
    if |xs| > 0 {
      FirstSeenMember(xs[..|xs| - 1], t);
      assert xs == xs[..|xs| - 1] + [xs[|xs| - 1]];
    }
  }

  /** No tag is listed twice. */
  lemma {:induction false} FirstSeenDistinct(xs: seq<string>)
    ensures forall i, j :: 0 <= i < j < |FirstSeen(xs)| ==> FirstSeen(xs)[i] != FirstSeen(xs)[j]
    decreases |xs|
  {
    if |xs| > 0 {
      FirstSeenDistinct(xs[..|xs| - 1]);
    }
  }

  /** `keys` and `counts` are the dictionary built from the tags `xs`: its keys in
      insertion order, and each key's number of occurrences. */
  ghost predicate IsTally(keys: seq<string>, counts: map<string, int>, xs: seq<string>) {
    && keys == FirstSeen(xs)
    && (forall t :: t in counts <==> t in xs)
    && (forall t :: t in counts ==> counts[t] == multiset(xs)[t])
  }

  lemma FirstSeenSnoc(xs: seq<string>, e: string)
    ensures FirstSeen(xs + [e]) == if e in xs then FirstSeen(xs) else FirstSeen(xs) + [e]
  {
    assert (xs + [e])[..|xs|] == xs;
    FirstSeenMember(xs, e);
  }

  /** One more tag: a known key's count goes up by one, a new key is appended with 1. */
  lemma TallyStep(keys: seq<string>, counts: map<string, int>, xs: seq<string>, e: string)
    requires IsTally(keys, counts, xs)
    ensures e in counts ==> IsTally(keys, counts[e := counts[e] + 1], xs + [e])
    ensures e !in counts ==> IsTally(keys + [e], counts[e := 1], xs + [e])
  {
    FirstSeenSnoc(xs, e);
    var c' := if e in counts then counts[e := counts[e] + 1] else counts[e := 1];
    forall t | t in c'
      ensures c'[t] == multiset(xs + [e])[t]
    {
      MultisetSnoc(xs, e, t);
    }
  }

  lemma MultisetSnoc(xs: seq<string>, e: string, t: string)
    ensures multiset(xs + [e])[t] == multiset(xs)[t] + if t == e then 1 else 0
  {
    assert multiset(xs + [e]) == multiset(xs) + multiset{e};
  }

  /** `counts[e] = (counts[e] || 0) + 1`, the key appended on first sight. */
  method AddTag(keys: seq<string>, counts: map<string, int>, ghost seen: seq<string>, e: string)
      returns (keys': seq<string>, counts': map<string, int>)
    requires IsTally(keys, counts, seen)
    ensures IsTally(keys', counts', seen + [e])
  {
    TallyStep(keys, counts, seen, e);
    if e in counts {
      keys', counts' := keys, counts[e := counts[e] + 1];
    } else {
      keys', counts' := keys + [e], counts[e := 1];
    }
  }

  /** `tags.forEach(t => counts[t] = (counts[t] || 0) + 1)` on a dictionary that already
      tallies `seen`. */
  method CountTags(keys: seq<string>, counts: map<string, int>, ghost seen: seq<string>, tags: seq<string>)
      returns (keys': seq<string>, counts': map<string, int>)
    requires IsTally(keys, counts, seen)
    ensures IsTally(keys', counts', seen + tags)
  {
    keys', counts' := keys, counts;
    PrefixSnoc(seen, tags, 0);
    for j := 0 to |tags|
      invariant IsTally(keys', counts', seen + tags[..j])
    {
      keys', counts' := AddTag(keys', counts', seen + tags[..j], tags[j]);
      PrefixSnoc(seen, tags, j);
    }
    PrefixSnoc(seen, tags, |tags|);
  }

  lemma PrefixSnoc(seen: seq<string>, tags: seq<string>, j: nat)
    requires j <= |tags|
    ensures j == 0 ==> seen + tags[..j] == seen
    ensures j == |tags| ==> tags[..j] == tags
    ensures j < |tags| ==> seen + tags[..j + 1] == (seen + tags[..j]) + [tags[j]]
  {
    if j < |tags| {
      assert tags[..j + 1] == tags[..j] + [tags[j]];
    }
  }

  /** Every error tag of the students, student by student. */
  function AllErrors(students: seq<Student>): seq<string>
    decreases |students|
  {
    if |students| == 0 then [] else AllErrors(students[..|students| - 1]) + students[|students| - 1].errors
  }

  // ---------------------------------------------------------------------------
  // The group rule's search
  // ---------------------------------------------------------------------------

  datatype GroupHit = GroupHit(group: string, error: string, count: int, percentage: real)

  function Percent(count: int, size: nat): real
    requires size > 0
  {
    (count as real / size as real) * 100.0
  }

  /** At least 40% of a tier of `size` students carry the tag `count` times over. */
  predicate Frequent(count: int, size: nat) {
    size > 0 && Percent(count, size) >= 40.0
  }

  function FrequentIn(all: seq<string>, size: nat): string -> bool {
    t => Frequent(multiset(all)[t], size)
  }

  /** The first tag, in first-seen order, that is frequent in the tier. */
  function TierMatch(t: Tier): Option<GroupHit> {
    var all := AllErrors(t.members);
    var tags := FirstSeen(all);
    match FindFirst(tags, FrequentIn(all, |t.members|))
    case None => None
    case Some(i) =>
      Some(GroupHit(t.name, tags[i], multiset(all)[tags[i]],
                    Percent(multiset(all)[tags[i]], |t.members|)))
  }

  /** The first non-empty tier, in order, that has a frequent tag, and that tag. */
  function GroupErrorMatch(tiers: seq<Tier>): Option<GroupHit>
    decreases |tiers|
  {
    if |tiers| == 0 then None
    else if |tiers[0].members| == 0 then GroupErrorMatch(tiers[1..])
    else match TierMatch(tiers[0])
      case Some(h) => Some(h)
      case None => GroupErrorMatch(tiers[1..])
  }

  /** No tag of the tier reaches 40%. */
  ghost predicate NoFrequentTag(t: Tier) {
    forall e :: e in AllErrors(t.members) ==>
      !Frequent(multiset(AllErrors(t.members))[e], |t.members|)
  }

  /** `h` reports a frequent tag of `t` with its count and percentage, and every tag first
      seen before it in `t` is not frequent. */
  ghost predicate HitIn(h: GroupHit, t: Tier) {
    var all := AllErrors(t.members);
    && h.group == t.name && h.error in all
    && h.count == multiset(all)[h.error] && Frequent(h.count, |t.members|)
    && h.percentage == Percent(h.count, |t.members|)
    && exists i :: 0 <= i < |FirstSeen(all)| && FirstSeen(all)[i] == h.error
         && forall m :: 0 <= m < i ==> !Frequent(multiset(all)[FirstSeen(all)[m]], |t.members|)
  }

  lemma TierMatchSpec(t: Tier)
    ensures TierMatch(t).None? <==> NoFrequentTag(t)
    ensures TierMatch(t).Some? ==> HitIn(TierMatch(t).value, t)
  {
    var all := AllErrors(t.members);
    var tags := FirstSeen(all);
    var f := FrequentIn(all, |t.members|);
    match FindFirst(tags, f)
    case None =>
      forall e | e in all
        ensures !Frequent(multiset(all)[e], |t.members|)
      {
        FirstSeenMember(all, e);
        var i :| 0 <= i < |tags| && tags[i] == e;
        assert !f(tags[i]);
      }
    case Some(i) =>
      FirstSeenMember(all, tags[i]);
      assert f(tags[i]);
      forall m | 0 <= m < i
        ensures !Frequent(multiset(all)[tags[m]], |t.members|)
      {
        assert !f(tags[m]);
      }
  }

  /** The group rule's search finds nothing exactly when no tier has a frequent tag, and
      otherwise reports a hit in some tier with every earlier tier free of frequent tags. */
  lemma {:induction false} GroupErrorMatchSpec(tiers: seq<Tier>)
    ensures GroupErrorMatch(tiers).None? <==> forall k :: 0 <= k < |tiers| ==> NoFrequentTag(tiers[k])
    ensures GroupErrorMatch(tiers).Some? ==>
      exists k :: 0 <= k < |tiers| && HitIn(GroupErrorMatch(tiers).value, tiers[k])
        && forall j :: 0 <= j < k ==> NoFrequentTag(tiers[j])
    decreases |tiers|
  {
    if |tiers| > 0 {
      GroupErrorMatchSpec(tiers[1..]);
      TierMatchSpec(tiers[0]);
      if |tiers[0].members| == 0 {
        EmptyTierNoTag(tiers[0]);
      }
      if GroupErrorMatch(tiers).Some? {
        GroupErrorMatchHit(tiers);
      } else {
        ShiftNoFrequent(tiers);
      }
    }
  }

  lemma EmptyTierNoTag(t: Tier)
    requires |t.members| == 0
    ensures NoFrequentTag(t)
  {
  }

  /** The tail's "no frequent tag anywhere" carries over to the whole list. */
  lemma ShiftNoFrequent(tiers: seq<Tier>)
    requires 0 < |tiers|
    ensures (NoFrequentTag(tiers[0]) && forall k :: 0 <= k < |tiers[1..]| ==> NoFrequentTag(tiers[1..][k]))
      <==> forall k :: 0 <= k < |tiers| ==> NoFrequentTag(tiers[k])
  {
    assert forall k :: 1 <= k < |tiers| ==> tiers[1..][k - 1] == tiers[k];
  }

  /** A hit either comes from the first tier or is the tail's hit, moved up one position. */
  lemma GroupErrorMatchHit(tiers: seq<Tier>)
    requires 0 < |tiers| && GroupErrorMatch(tiers).Some?
    requires |tiers[0].members| == 0 ==> NoFrequentTag(tiers[0])
    requires TierMatch(tiers[0]).None? <==> NoFrequentTag(tiers[0])
    requires TierMatch(tiers[0]).Some? ==> HitIn(TierMatch(tiers[0]).value, tiers[0])
    requires GroupErrorMatch(tiers[1..]).Some? ==>
      exists k :: 0 <= k < |tiers[1..]| && HitIn(GroupErrorMatch(tiers[1..]).value, tiers[1..][k])
        && forall j :: 0 <= j < k ==> NoFrequentTag(tiers[1..][j])
    ensures exists k :: (0 <= k < |tiers| && HitIn(GroupErrorMatch(tiers).value, tiers[k])
        && forall j :: 0 <= j < k ==> NoFrequentTag(tiers[j]))
  {
    var h := GroupErrorMatch(tiers).value;
    if |tiers[0].members| > 0 && TierMatch(tiers[0]).Some? {
      assert HitIn(h, tiers[0]);
    } else {
      assert NoFrequentTag(tiers[0]);
      var k :| 0 <= k < |tiers[1..]| && HitIn(h, tiers[1..][k])
        && forall j :: 0 <= j < k ==> NoFrequentTag(tiers[1..][j]);
      ShiftHit(tiers, h, k);
    }
  }

  /** A hit of the tail, behind a first tier without frequent tags, is a hit of the whole
      list one position further on. */
  lemma ShiftHit(tiers: seq<Tier>, h: GroupHit, k: nat)
    requires k + 1 < |tiers| && NoFrequentTag(tiers[0])
    requires HitIn(h, tiers[1..][k]) && forall j :: 0 <= j < k ==> NoFrequentTag(tiers[1..][j])
    ensures HitIn(h, tiers[k + 1]) && forall j :: 0 <= j < k + 1 ==> NoFrequentTag(tiers[j])
  {
    assert tiers[1..][k] == tiers[k + 1];
    forall j | 0 <= j < k + 1
      ensures NoFrequentTag(tiers[j])
    {
      if j > 0 {
        assert tiers[1..][j - 1] == tiers[j];
      }
    }
  }

  /** The tier's `errorCounts`: a tally over its students, one student at a time. */
  method TallyTier(members: seq<Student>) returns (keys: seq<string>, counts: map<string, int>)
    ensures IsTally(keys, counts, AllErrors(members))
  {
    keys, counts := [], map[];
    for i := 0 to |members|
      invariant IsTally(keys, counts, AllErrors(members[..i]))
    {
      assert members[..i + 1][..i] == members[..i];
      keys, counts := CountTags(keys, counts, AllErrors(members[..i]), members[i].errors);
    }
    assert members[..|members|] == members;
  }

  /** The `for (const [error, count] of Object.entries(errorCounts))` scan: the first key
      whose percentage of the tier reaches 40. */
  method FirstFrequent(keys: seq<string>, counts: map<string, int>, ghost all: seq<string>, size: nat)
      returns (r: Option<nat>)
    requires IsTally(keys, counts, all) && size > 0
    ensures r == FindFirst(keys, FrequentIn(all, size))
  {
    for k := 0 to |keys|
      invariant forall m :: 0 <= m < k ==> !FrequentIn(all, size)(keys[m])
    {
      FirstSeenMember(all, keys[k]);
      var percentage := (counts[keys[k]] as real / size as real) * 100.0;
      if percentage >= 40.0 {
        FindFirstIs(keys, FrequentIn(all, size), k);
        return Some(k);
      }
    }
    return None;
  }

  /** The nested loops of the group rule: tiers in order, empty ones skipped, each tier's
      tags tallied over its students, and the tags checked in first-seen order. */
  method FindGroupError(tiers: seq<Tier>) returns (r: Option<GroupHit>)
    ensures r == GroupErrorMatch(tiers)
  {
    for g := 0 to |tiers|
      invariant GroupErrorMatch(tiers[g..]) == GroupErrorMatch(tiers)
    {
      var tier := tiers[g];
      assert tiers[g..][1..] == tiers[g + 1..];
      if |tier.members| > 0 {
        var keys, counts := TallyTier(tier.members);
        FirstSeenMember(AllErrors(tier.members), "");
        var found := FirstFrequent(keys, counts, AllErrors(tier.members), |tier.members|);
        if found.Some? {
          var k := found.value;
          FirstSeenMember(AllErrors(tier.members), keys[k]);
          var count := counts[keys[k]];
          return Some(GroupHit(tier.name, keys[k], count, Percent(count, |tier.members|)));
        }
      }
    }
    return None;
  }

  // ---------------------------------------------------------------------------
  // The per-student rules
  // ---------------------------------------------------------------------------

  /** Score below 4 and some tag occurring at least twice in the student's own errors. */
  predicate AtRisk(s: Student) {
    s.score < 4.0 && exists t :: t in s.errors && multiset(s.errors)[t] >= 2
  }

  /** A previous score exists and the current one exceeds the last of them by more than 2. */
  predicate Improved(s: Student) {
    match s.previousScores
    case None => false
    case Some(ps) => |ps| > 0 && s.score - ps[|ps| - 1] > 2.0
  }

  /** `Object.values(counts).some(c => c >= 2)` over a student's own tally. */
  method HasRepeatedTag(errors: seq<string>) returns (b: bool)
    ensures b <==> exists t :: t in errors && multiset(errors)[t] >= 2
  {
    var keys, counts := CountTags([], map[], [], errors);
    assert [] + errors == errors;
    b := false;
    var k := 0;
    while k < |keys| && !b
      invariant k <= |keys|
      invariant !b ==> forall m :: 0 <= m < k ==> keys[m] in counts && counts[keys[m]] < 2
      invariant b ==> exists t :: t in errors && multiset(errors)[t] >= 2
      decreases |keys| - k
    {
      FirstSeenMember(errors, keys[k]);
      b := counts[keys[k]] >= 2;
      k := k + 1;
    }
    if !b {
      forall t | t in errors
        ensures multiset(errors)[t] < 2
      {
        FirstSeenMember(errors, t);
        var m :| 0 <= m < |keys| && keys[m] == t;
      }
    }
  }

  /** The at-risk filter, whose callback tallies each low-scoring student's tags. */
  method AtRiskStudents(students: seq<Student>) returns (r: seq<Student>)
    ensures r == Filter(students, AtRisk)
  {
    r := [];
    for i := 0 to |students|
      invariant r == Filter(students[..i], AtRisk)
    {
      var s := students[i];
      var keep := false;
      if s.score < 4.0 {
        keep := HasRepeatedTag(s.errors);
      }
      FilterPrefixStep(students, i, AtRisk);
      if keep {
        r := r + [s];
      }
    }
    assert students[..|students|] == students;
  }

  // ---------------------------------------------------------------------------
  // checkTrigger
  // ---------------------------------------------------------------------------

  /** A class-wide error reaching 30% of the class. */
  predicate Critical(e: ErrorStat) { e.percentage >= 30.0 }

  function GroupContext(h: GroupHit): Context
    requires h.percentage >= 0.0
  {
    [ ("group", Str(h.group)), ("error", Str(h.error)), ("count", Num(h.count)),
      ("percentage", Str(NatToString(RoundHalfUp(h.percentage)))) ]
  }

  /** What `checkTrigger` reports for a rule, by its id; an unknown id never fires. */
  function TriggerOutcome(rule: TriggerRule, data: ClassData): TriggerResult {
    if rule.id == CommonErrorId then
      match FindFirst(data.commonErrors, Critical)
      case Some(i) =>
        Met([("error", Str(data.commonErrors[i].tag)), ("count", Num(data.commonErrors[i].count))])
      case None => NotMet
    else if rule.id == VarianceId then
      match Variance(Scores(data.students))
      case Some(v) => if v > 6.25 then Met([("variance", Str(SqrtToFixed2(v)))]) else NotMet
      case None => NotMet
    else if rule.id == GroupErrorId then
      GroupOutcome(data.students)
    else if rule.id == AtRiskId then
      StudentsOutcome(Filter(data.students, AtRisk))
    else if rule.id == ImprovementId then
      StudentsOutcome(Filter(data.students, Improved))
    else if rule.id == TopicId then
      if MockTopicMastery >= 90 then Met([("topic", Str(MockTopic)), ("mastery", Num(MockTopicMastery))])
      else NotMet
    else NotMet
  }

  function GroupOutcome(students: seq<Student>): TriggerResult {
    match GroupErrorMatch(GroupStudents(students))
    case Some(h) =>
      GroupErrorMatchPositive(GroupStudents(students));
      Met(GroupContext(h))
    case None => NotMet
  }

  /** A collect-all rule fires when its list is non-empty, with the list and its length. */
  function StudentsOutcome(r: seq<Student>): TriggerResult {
    if |r| > 0 then Met([("students", StudentList(r)), ("count", Num(|r|))]) else NotMet
  }

  /** A hit's percentage is at least 40, so it can be rounded. */
  lemma GroupErrorMatchPositive(tiers: seq<Tier>)
    requires GroupErrorMatch(tiers).Some?
    ensures GroupErrorMatch(tiers).value.percentage >= 40.0
  {
    GroupErrorMatchSpec(tiers);
  }

  method CheckTrigger(rule: TriggerRule, data: ClassData) returns (r: TriggerResult)
    ensures r == TriggerOutcome(rule, data)
  {
    var students := data.students;
    var groups := GroupStudents(students);
    if rule.id == CommonErrorId {
      var critical := FindFirst(data.commonErrors, Critical);
      if critical.Some? {
        var e := data.commonErrors[critical.value];
        return Met([("error", Str(e.tag)), ("count", Num(e.count))]);
      }
    } else if rule.id == VarianceId {
      var variance := Variance(Scores(students));
      if variance.Some? && variance.value > 6.25 {
        return Met([("variance", Str(SqrtToFixed2(variance.value)))]);
      }
    } else if rule.id == GroupErrorId {
      var hit := FindGroupError(groups);
      if hit.Some? {
        GroupErrorMatchPositive(groups);
        return Met(GroupContext(hit.value));
      }
    } else if rule.id == AtRiskId {
      var atRisk := AtRiskStudents(students);
      if |atRisk| > 0 {
        return Met([("students", StudentList(atRisk)), ("count", Num(|atRisk|))]);
      }
    } else if rule.id == ImprovementId {
      var improved := Filter(students, Improved);
      if |improved| > 0 {
        return Met([("students", StudentList(improved)), ("count", Num(|improved|))]);
      }
    } else if rule.id == TopicId {
      if MockTopicMastery >= 90 {
        return Met([("topic", Str(MockTopic)), ("mastery", Num(MockTopicMastery))]);
      }
    }
    return NotMet;
  }

  // ---------------------------------------------------------------------------
  // Filling a template
  // ---------------------------------------------------------------------------

  function Placeholder(key: string): string { "{" + key + "}" }

  /** `String(list)` for a list of plain objects: "[object Object]" once per element,
      joined by commas. */
  function ObjectList(n: nat): string
    decreases n
  {
    if n == 0 then "" else if n == 1 then "[object Object]" else ObjectList(n - 1) + ",[object Object]"
  }

  /** `String(value)`. */
  function ValueString(v: ContextValue): string {
    match v
    case Str(s) => s
    case Num(n) => IntToString(n)
    case StudentList(ss) => ObjectList(|ss|)
  }

  /** The replacement loop: for each context entry in order, the first `{key}` in the text
      is replaced by the value's string form. */
  function Fill(text: string, ctx: Context): string
    decreases |ctx|
  {
    if |ctx| == 0 then text
    else Fill(ReplaceFirst(text, Placeholder(ctx[0].0), ValueString(ctx[0].1)), ctx[1..])
  }

  /** The value of the first entry named `key`. */
  function Lookup(ctx: Context, key: string): (r: Option<ContextValue>)
    ensures r.Some? ==> exists i :: 0 <= i < |ctx| && ctx[i] == (key, r.value)
    ensures r.None? ==> forall i :: 0 <= i < |ctx| ==> ctx[i].0 != key
    decreases |ctx|
  {
    if |ctx| == 0 then None else if ctx[0].0 == key then Some(ctx[0].1) else Lookup(ctx[1..], key)
  }

  /** The context's `count` when it is a non-zero number, else the length of its
      `students` list, else 0. */
  function AffectedCount(ctx: Context): int {
    match Lookup(ctx, "count")
    case Some(Num(n)) =>
      if n != 0 then n else StudentsCount(ctx)
    case _ => StudentsCount(ctx)
  }

  function StudentsCount(ctx: Context): nat {
    match Lookup(ctx, "students")
    case Some(StudentList(ss)) => |ss|
    case _ => 0
  }

  // ---------------------------------------------------------------------------
  // Derived fields
  // ---------------------------------------------------------------------------

  function SuggestionType(actionType: string): (r: string)
    ensures r == "important" <==> actionType == "class"
    ensures r == "urgent" <==> actionType == "individual"
    ensures r == "important" || r == "urgent" || r == "improvement"
  {
    if actionType == "class" then "important"
    else if actionType == "individual" then "urgent"
    else "improvement"
  }

  /** `getActionLabel`: one label per action type, "Thực hiện" for anything else. */
  function ActionLabel(actionType: string): string {
    if actionType == "class" then "Thông báo lớp"
    else if actionType == "group" then "Can thiệp nhóm"
    else if actionType == "individual" then "Phản hồi cá nhân"
    else if actionType == "parent" then "Liên hệ phụ huynh"
    else "Thực hiện"
  }

  /** `getActionIcon`: one icon per action type, "book" for anything else. */
  function ActionIcon(actionType: string): string {
    if actionType == "class" then "book"
    else if actionType == "group" then "users"
    else if actionType == "individual" then "alert"
    else if actionType == "parent" then "trend"
    else "book"
  }

  predicate KnownActionType(actionType: string) {
    actionType == "class" || actionType == "group" || actionType == "individual" || actionType == "parent"
  }

  /** The four action types get four different labels and the fallback label is none of
      them; the icon lookup gives "book" to the class type and to unknown types alike. */
  lemma LookupTables(a: string, b: string)
    ensures KnownActionType(a) && KnownActionType(b) && a != b ==> ActionLabel(a) != ActionLabel(b)
    ensures KnownActionType(a) <==> ActionLabel(a) != "Thực hiện"
    ensures !KnownActionType(a) ==> ActionIcon(a) == "book"
    ensures KnownActionType(a) && KnownActionType(b) && a != b && ActionIcon(a) == ActionIcon(b)
      ==> "class" in {a, b} && ActionIcon(a) == "book"
  {
  }

  /** The card built for a rule from its filled text; `now` is the `Date.now()` reading. */
  function Card(rule: TriggerRule, text: string, affected: int, now: nat): Suggestion {
    Suggestion(rule.id + "_" + NatToString(now), SuggestionType(rule.actionType), Before(text, '.'),
               text, ActionLabel(rule.actionType), ActionIcon(rule.actionType), rule.priority,
               rule.id, affected, rule.estimatedImpact, true)
  }

  /** The cards a rule contributes: one when it fires, none otherwise. */
  function Fired(rule: TriggerRule, data: ClassData, now: nat): seq<Suggestion> {
    match TriggerOutcome(rule, data)
    case NotMet => []
    case Met(ctx) => [Card(rule, Fill(rule.suggestion, ctx), AffectedCount(ctx), now)]
  }

  /** The cards of `rules`, in rule order. */
  function Collected(rules: seq<TriggerRule>, data: ClassData, now: nat): seq<Suggestion> {
    FlatMap(rules, FiredFor(data, now))
  }

  function FiredFor(data: ClassData, now: nat): TriggerRule -> seq<Suggestion> {
    r => Fired(r, data, now)
  }

  function PriorityKey(s: Suggestion): real { s.priority as real }

  /** `generateActionSuggestions`: the cards of the catalog, by priority, highest first. */
  function Suggestions(data: ClassData, now: nat): seq<Suggestion> {
    SortDesc(Collected(TriggerRules, data, now), PriorityKey)
  }

  /** The `Object.entries(context).forEach` loop that rewrites the text entry by entry. */
  method FillSuggestion(text: string, ctx: Context) returns (suggestion: string)
    ensures suggestion == Fill(text, ctx)
  {
    suggestion := text;
    for k := 0 to |ctx|
      invariant Fill(suggestion, ctx[k..]) == Fill(text, ctx)
    {
      assert ctx[k..][1..] == ctx[k + 1..];
      suggestion := ReplaceFirst(suggestion, Placeholder(ctx[k].0), ValueString(ctx[k].1));
    }
  }

  /** The `triggerRules.forEach` loop: every rule checked in turn, a card pushed for each
      rule that fires. */
  method CollectSuggestions(rules: seq<TriggerRule>, data: ClassData, now: nat)
      returns (suggestions: seq<Suggestion>)
    ensures suggestions == Collected(rules, data, now)
  {
    suggestions := [];
    for i := 0 to |rules|
      invariant suggestions == Collected(rules[..i], data, now)
    {
      var rule := rules[i];
      assert rules[..i + 1] == rules[..i] + [rule];
      FlatMapSnoc(rules[..i], rule, FiredFor(data, now));
      var result := CheckTrigger(rule, data);
      if result.Met? {
        var suggestion := FillSuggestion(rule.suggestion, result.context);
        suggestions := suggestions + [Card(rule, suggestion, AffectedCount(result.context), now)];
      }
    }
    assert rules[..|rules|] == rules;
  }

  method GenerateActionSuggestions(data: ClassData, now: nat) returns (out: seq<Suggestion>)
    ensures out == Suggestions(data, now)
  {
    var suggestions := CollectSuggestions(TriggerRules, data, now);
    out := SortDesc(suggestions, PriorityKey);
  }

  // ---------------------------------------------------------------------------
  // When each rule fires, and what it reports
  // ---------------------------------------------------------------------------

  /** The class-wide rule fires exactly when some error reaches 30%, and then reports the
      tag and count of the first such error in list order. */
  lemma CommonErrorFires(data: ClassData)
    ensures TriggerOutcome(CommonErrorRule, data).Met? <==>
      exists e :: e in data.commonErrors && e.percentage >= 30.0
    ensures TriggerOutcome(CommonErrorRule, data).Met? ==>
      exists k :: 0 <= k < |data.commonErrors| && data.commonErrors[k].percentage >= 30.0
        && (forall m :: 0 <= m < k ==> data.commonErrors[m].percentage < 30.0)
        && TriggerOutcome(CommonErrorRule, data).context
           == [("error", Str(data.commonErrors[k].tag)), ("count", Num(data.commonErrors[k].count))]
  {
    var ce := data.commonErrors;
    match FindFirst(ce, Critical)
    case None =>
      forall e | e in ce
        ensures e.percentage < 30.0
      {
        var i :| 0 <= i < |ce| && ce[i] == e;
        assert !Critical(ce[i]);
      }
    case Some(k) =>
      assert Critical(ce[k]);
      forall m | 0 <= m < k
        ensures ce[m].percentage < 30.0
      {
        assert !Critical(ce[m]);
      }
  }

  /** The spread rule compares the population variance with 6.25 and never fires on an
      empty roster, where the variance is undefined. */
  lemma VarianceFires(data: ClassData)
    ensures TriggerOutcome(VarianceRule, data).Met? <==>
      |data.students| > 0 && Variance(Scores(data.students)).value > 6.25
    ensures |data.students| == 0 ==> TriggerOutcome(VarianceRule, data) == NotMet
  {
  }

  /** Comparing the variance with 6.25 is comparing the standard deviation with 2.5. */
  lemma StdDevThreshold(sd: real)
    requires 0.0 <= sd
    ensures sd > 2.5 <==> Square(sd) > 6.25
  {
    if sd > 2.5 {
      assert sd * sd >= sd * 2.5;
    } else {
      assert sd * sd <= sd * 2.5;
    }
  }

  /** A class whose students all have one score has no spread: the rule does not fire. */
  lemma UniformScoresNoSpread(data: ClassData, c: real)
    requires forall s :: s in data.students ==> s.score == c
    ensures TriggerOutcome(VarianceRule, data) == NotMet
  {
    UniformScores(data.students, c);
    ConstantVariance(Scores(data.students), c);
  }

  lemma UniformScores(students: seq<Student>, c: real)
    requires forall s :: s in students ==> s.score == c
    ensures forall i :: 0 <= i < |Scores(students)| ==> Scores(students)[i] == c
  {
    forall i | 0 <= i < |Scores(students)|
      ensures Scores(students)[i] == c
    {
      assert students[i] in students;
    }
  }

  /** Equal values have variance 0. */
  lemma ConstantVariance(xs: seq<real>, c: real)
    requires forall i :: 0 <= i < |xs| ==> xs[i] == c
    ensures |xs| > 0 ==> Variance(xs) == Some(0.0)
  {
    if |xs| > 0 {
      ConstantSum(xs, c);
      assert Sum(xs) / |xs| as real == c;
      ConstantDeviations(xs, c);
    }
  }

  lemma {:induction false} ConstantSum(xs: seq<real>, c: real)
    requires forall i :: 0 <= i < |xs| ==> xs[i] == c
    ensures Sum(xs) == |xs| as real * c
    decreases |xs|
  {
    if |xs| > 0 {
      ConstantSum(xs[..|xs| - 1], c);
      assert (|xs| - 1) as real * c + c == |xs| as real * c;
    }
  }

  lemma {:induction false} ConstantDeviations(xs: seq<real>, c: real)
    requires forall i :: 0 <= i < |xs| ==> xs[i] == c
    ensures SquaredDeviations(xs, c) == 0.0
    decreases |xs|
  {
    if |xs| > 0 {
      ConstantDeviations(xs[..|xs| - 1], c);
    }
  }

  /** The group rule fires exactly when some tier has a tag carried by 40% of it; it then
      reports a frequent tag of a tier with every earlier tier free of frequent tags. */
  lemma GroupErrorFires(data: ClassData)
    ensures var tiers := GroupStudents(data.students);
      TriggerOutcome(GroupErrorRule, data).Met? <==>
        exists k :: 0 <= k < |tiers| && !NoFrequentTag(tiers[k])
    ensures var tiers := GroupStudents(data.students);
      TriggerOutcome(GroupErrorRule, data).Met? ==>
        exists h: GroupHit :: h.percentage >= 40.0 && TriggerOutcome(GroupErrorRule, data).context == GroupContext(h)
          && exists k :: (0 <= k < |tiers| && HitIn(h, tiers[k]) && forall j :: 0 <= j < k ==> NoFrequentTag(tiers[j]))
  {
    var tiers := GroupStudents(data.students);
    GroupErrorMatchSpec(tiers);
    if GroupErrorMatch(tiers).Some? {
      GroupErrorMatchPositive(tiers);
      var h := GroupErrorMatch(tiers).value;
      assert TriggerOutcome(GroupErrorRule, data).context == GroupContext(h);
    }
  }

  /** A collect-all rule fires exactly when some student passes its test; its list holds
      exactly the passing students, in roster order. */
  lemma StudentsOutcomeSpec(students: seq<Student>, keep: Student -> bool)
    ensures StudentsOutcome(Filter(students, keep)).Met? <==> exists s :: s in students && keep(s)
    ensures forall s :: s in Filter(students, keep) <==> s in students && keep(s)
    ensures Subsequence(Filter(students, keep), students)
  {
    forall s
      ensures s in Filter(students, keep) <==> s in students && keep(s)
    {
      FilterMember(students, keep, s);
    }
    FilterIsSubsequence(students, keep);
  }

  /** The at-risk rule: the students scoring below 4 with a repeated tag, and their number. */
  lemma AtRiskFires(data: ClassData)
    ensures TriggerOutcome(AtRiskRule, data).Met? <==> exists s :: s in data.students && AtRisk(s)
    ensures TriggerOutcome(AtRiskRule, data).Met? ==>
      var r := Filter(data.students, AtRisk);
      && TriggerOutcome(AtRiskRule, data).context == [("students", StudentList(r)), ("count", Num(|r|))]
      && (forall s :: s in r <==> s in data.students && AtRisk(s))
      && Subsequence(r, data.students)
  {
    StudentsOutcomeSpec(data.students, AtRisk);
  }

  /** The improvement rule: the students more than 2 points above their last score. */
  lemma ImprovementFires(data: ClassData)
    ensures TriggerOutcome(ImprovementRule, data).Met? <==> exists s :: s in data.students && Improved(s)
    ensures TriggerOutcome(ImprovementRule, data).Met? ==>
      var r := Filter(data.students, Improved);
      && TriggerOutcome(ImprovementRule, data).context == [("students", StudentList(r)), ("count", Num(|r|))]
      && (forall s :: s in r <==> s in data.students && Improved(s))
      && Subsequence(r, data.students)
  {
    StudentsOutcomeSpec(data.students, Improved);
  }

  // ---------------------------------------------------------------------------
  // The cards' texts and numbers
  // ---------------------------------------------------------------------------

  /** A value that the template filling inserts verbatim and that adds no placeholder:
      no `{` and no `$` pattern. */
  predicate Plain(v: string) { '{' !in v && '$' !in v }

  /** A text holding none of the context's placeholders comes through unchanged. */
  lemma {:induction false} FillUntouched(text: string, ctx: Context)
    requires forall i :: 0 <= i < |ctx| ==> !Contains(text, Placeholder(ctx[i].0))
    ensures Fill(text, ctx) == text
    decreases |ctx|
  {
    if |ctx| > 0 {
      ReplaceFirstAbsent(text, Placeholder(ctx[0].0), ValueString(ctx[0].1));
      assert forall i :: 0 <= i < |ctx[1..]| ==> ctx[1..][i] == ctx[i + 1];
      FillUntouched(text, ctx[1..]);
    }
  }

  /** A text without `{` holds no placeholder at all. */
  lemma BraceFreeUntouched(text: string, ctx: Context)
    requires '{' !in text
    ensures Fill(text, ctx) == text
  {
    forall i | 0 <= i < |ctx|
      ensures !Contains(text, Placeholder(ctx[i].0))
    {
      NoFirstCharNoOccurrence(text, Placeholder(ctx[i].0));
    }
    FillUntouched(text, ctx);
  }

  /** The first entry's placeholder, preceded by no `{`, takes the entry's plain value. */
  lemma FillStep(head: string, key: string, tail: string, ctx: Context)
    requires 0 < |ctx| && ctx[0].0 == key && ctx[0].1.Str? && Plain(ctx[0].1.s)
    requires '{' !in head
    ensures Fill(head + Placeholder(key) + tail, ctx) == Fill(head + ctx[0].1.s + tail, ctx[1..])
  {
    ReplaceFirstAfterBraceFree(head, Placeholder(key), tail, ctx[0].1.s);
  }

  /** A one-placeholder template whose placeholder is the first entry's key. */
  lemma FillFirst(head: string, key: string, tail: string, ctx: Context)
    requires 0 < |ctx| && ctx[0].0 == key && ctx[0].1.Str? && Plain(ctx[0].1.s)
    requires '{' !in head && '{' !in tail
    ensures Fill(head + Placeholder(key) + tail, ctx) == head + ctx[0].1.s + tail
  {
    FillStep(head, key, tail, ctx);
    BraceFreeUntouched(head + ctx[0].1.s + tail, ctx[1..]);
  }

  /** The title of a text made of a dot-free head, a value and a tail opening with a dot:
      the head and the value's first sentence. */
  lemma TitleOf(head: string, v: string, tail: string)
    requires '.' !in head && 0 < |tail| && tail[0] == '.'
    ensures Before(head + v + tail, '.') == head + Before(v, '.')
  {
    assert head + v + tail == head + (v + tail);
    BeforeAppend(head, v + tail, '.');
    if '.' in v {
      BeforePrefix(v, tail, '.');
    } else {
      BeforeAppend(v, tail, '.');
      BeforeIs(tail, '.', 0);
      BeforeIs(v, '.', |v|);
    }
  }

  /** A piece that opens a template: no `{` and no `.`. */
  predicate OpeningPiece(s: string) { '{' !in s && '.' !in s }

  /** A piece that closes a template: no `{`, and its first sentence ends at its start. */
  predicate ClosingPiece(s: string) { '{' !in s && 0 < |s| && s[0] == '.' }

  lemma Placeholders()
    ensures Placeholder("error") == "{error}" && Placeholder("group") == "{group}"
    ensures Placeholder("topic") == "{topic}"
  {
  }

  /** A fired rule contributes the one card built from its filled text. */
  lemma FiredIs(rule: TriggerRule, data: ClassData, now: nat, ctx: Context, text: string)
    requires TriggerOutcome(rule, data) == Met(ctx) && Fill(rule.suggestion, ctx) == text
    ensures Fired(rule, data, now) == [Card(rule, text, AffectedCount(ctx), now)]
  {
  }

  /** A context with neither a `count` nor a `students` entry affects nobody. */
  lemma AffectedNone(ctx: Context)
    requires forall i :: 0 <= i < |ctx| ==> ctx[i].0 != "count" && ctx[i].0 != "students"
    ensures AffectedCount(ctx) == 0
  {
  }

  // The class-wide error card.

  lemma CommonErrorPieces()
    ensures OpeningPiece(CommonErrorHead)
  {
  }

  lemma CommonErrorTailPieces()
    ensures ClosingPiece(CommonErrorTail)
  {
  }

  /** The tag fills `{error}`; the template has no `{count}`. */
  lemma CommonErrorText(tag: string, count: int)
    requires Plain(tag)
    ensures Fill(CommonErrorRule.suggestion, [("error", Str(tag)), ("count", Num(count))])
      == CommonErrorHead + tag + CommonErrorTail
  {
    CommonErrorPieces();
    CommonErrorTailPieces();
    Placeholders();
    FillFirst(CommonErrorHead, "error", CommonErrorTail, [("error", Str(tag)), ("count", Num(count))]);
  }

  /** The error's count is the affected number, zero included. */
  lemma CommonErrorAffected(tag: string, n: int)
    ensures AffectedCount([("error", Str(tag)), ("count", Num(n))]) == n
  {
    var ctx := [("error", Str(tag)), ("count", Num(n))];
    assert "error" != "count" && "error" != "students" && "count" != "students" by {
      assert "error"[0] != "count"[0] && "error"[0] != "students"[0] && "count"[0] != "students"[0];
    }
    assert ctx[1..] == [("count", Num(n))] && ctx[1..][1..] == [];
    assert Lookup(ctx, "count") == Lookup(ctx[1..], "count") == Some(Num(n));
    assert Lookup(ctx, "students") == Lookup(ctx[1..], "students") == Lookup(ctx[1..][1..], "students") == None;
  }

  /** The class-wide card: the first critical error's tag in the text, its count as the
      affected number. */
  lemma CommonErrorCard(data: ClassData, now: nat, k: nat)
    requires k < |data.commonErrors| && data.commonErrors[k].percentage >= 30.0
    requires forall m :: 0 <= m < k ==> data.commonErrors[m].percentage < 30.0
    requires Plain(data.commonErrors[k].tag)
    ensures var e := data.commonErrors[k];
      Fired(CommonErrorRule, data, now)
        == [Card(CommonErrorRule, CommonErrorHead + e.tag + CommonErrorTail, e.count, now)]
  {
    var e := data.commonErrors[k];
    var ctx := [("error", Str(e.tag)), ("count", Num(e.count))];
    FindFirstIs(data.commonErrors, Critical, k);
    CommonErrorText(e.tag, e.count);
    CommonErrorAffected(e.tag, e.count);
    FiredIs(CommonErrorRule, data, now, ctx, CommonErrorHead + e.tag + CommonErrorTail);
  }

  /** Its title ends where the tag's first sentence ends. */
  lemma CommonErrorTitle(tag: string)
    ensures Before(CommonErrorHead + tag + CommonErrorTail, '.') == CommonErrorHead + Before(tag, '.')
  {
    CommonErrorPieces();
    CommonErrorTailPieces();
    TitleOf(CommonErrorHead, tag, CommonErrorTail);
  }

  // The spread card.

  lemma VariancePieces()
    ensures OpeningPiece(VarianceHead)
  {
  }

  lemma VarianceTailPieces()
    ensures ClosingPiece(VarianceTail)
  {
  }

  /** The spread card keeps its text (it has no placeholder) and affects nobody. */
  lemma VarianceCard(data: ClassData, now: nat)
    requires TriggerOutcome(VarianceRule, data).Met?
    ensures Fired(VarianceRule, data, now) == [Card(VarianceRule, VarianceHead + VarianceTail, 0, now)]
  {
    var ctx := TriggerOutcome(VarianceRule, data).context;
    VariancePieces();
    VarianceTailPieces();
    BraceFreeUntouched(VarianceHead + VarianceTail, ctx);
    assert "variance" != "count" && "variance" != "students" by {
      assert "variance"[0] != "count"[0] && "variance"[0] != "students"[0];
    }
    AffectedNone(ctx);
    FiredIs(VarianceRule, data, now, ctx, VarianceHead + VarianceTail);
  }

  lemma VarianceTitle()
    ensures Before(VarianceHead + VarianceTail, '.') == VarianceHead
  {
    VariancePieces();
    VarianceTailPieces();
    TitleOf(VarianceHead, "", VarianceTail);
    assert VarianceHead + "" + VarianceTail == VarianceHead + VarianceTail;
    BeforeIs("", '.', 0);
  }

  // The group card.

  lemma GroupPieces()
    ensures OpeningPiece(GroupHead)
  {
  }

  lemma GroupMiddlePieces()
    ensures OpeningPiece(GroupMiddle)
  {
  }

  lemma GroupTailPieces()
    ensures ClosingPiece(GroupTail)
  {
  }

  /** The tier names have no `{`, `$` or `.`. */
  lemma TierNamesPlain(j: nat)
    requires j < |TierNames|
    ensures Plain(TierNames[j]) && '.' !in TierNames[j]
  {
  }

  /** A reported group is one of the four tier names. */
  lemma HitGroupName(students: seq<Student>)
    requires GroupErrorMatch(GroupStudents(students)).Some?
    ensures exists j :: 0 <= j < |TierNames| && GroupErrorMatch(GroupStudents(students)).value.group == TierNames[j]
  {
    var tiers := GroupStudents(students);
    GroupErrorMatchSpec(tiers);
    var k :| 0 <= k < |tiers| && HitIn(GroupErrorMatch(tiers).value, tiers[k]);
    TierNameAt(students, k);
  }

  lemma TierNameAt(students: seq<Student>, k: nat)
    requires k < 4
    ensures GroupStudents(students)[k].name == TierNames[k]
  {
  }

  lemma Regroup(a: string, b: string, c: string, d: string, e: string)
    ensures a + b + c + d + e == a + b + (c + d + e)
  {
  }

  lemma GroupTemplate()
    ensures GroupErrorRule.suggestion
      == GroupHead + Placeholder("group") + (GroupMiddle + Placeholder("error") + GroupTail)
  {
    Placeholders();
    Regroup(GroupHead, "{group}", GroupMiddle, "{error}", GroupTail);
  }

  /** The tier's name fills `{group}`, ... */
  lemma GroupErrorStep(h: GroupHit)
    requires h.percentage >= 0.0 && Plain(h.group)
    ensures Fill(GroupErrorRule.suggestion, GroupContext(h))
      == Fill(GroupHead + h.group + GroupMiddle + Placeholder("error") + GroupTail, GroupContext(h)[1..])
  {
    GroupTemplate();
    GroupPieces();
    FillStep(GroupHead, "group", GroupMiddle + Placeholder("error") + GroupTail, GroupContext(h));
    Regroup(GroupHead, h.group, GroupMiddle, Placeholder("error"), GroupTail);
  }

  /** ... and the tag `{error}`; the template has neither `{count}` nor `{percentage}`. */
  lemma GroupErrorText(h: GroupHit)
    requires h.percentage >= 0.0 && Plain(h.group) && Plain(h.error)
    ensures Fill(GroupErrorRule.suggestion, GroupContext(h))
      == GroupHead + h.group + GroupMiddle + h.error + GroupTail
  {
    GroupErrorStep(h);
    GroupPieces();
    GroupMiddlePieces();
    GroupTailPieces();
    FillFirst(GroupHead + h.group + GroupMiddle, "error", GroupTail, GroupContext(h)[1..]);
  }

  /** The tag's count in the tier is the affected number. */
  lemma GroupErrorAffected(h: GroupHit)
    requires h.percentage >= 0.0
    ensures AffectedCount(GroupContext(h)) == h.count
  {
    var ctx := GroupContext(h);
    assert "group" != "count" && "group" != "students" && "error" != "count" && "error" != "students"
      && "count" != "students" && "percentage" != "students" by {
      assert "group"[0] != "count"[0] && "group"[0] != "students"[0] && "error"[0] != "count"[0]
        && "error"[0] != "students"[0] && "count"[0] != "students"[0] && "percentage"[0] != "students"[0];
    }
    assert ctx[1..][1..] == [ctx[2], ctx[3]] && ctx[1..][1..][1..] == [ctx[3]] && ctx[1..][1..][1..][1..] == [];
    assert Lookup(ctx, "count") == Some(Num(h.count));
    assert Lookup(ctx, "students") == None;
  }

  /** The group card: tier and tag in the text, the tag's count as the affected number. */
  lemma GroupErrorCard(data: ClassData, now: nat)
    requires GroupErrorMatch(GroupStudents(data.students)).Some?
    requires Plain(GroupErrorMatch(GroupStudents(data.students)).value.error)
    ensures var h := GroupErrorMatch(GroupStudents(data.students)).value;
      Fired(GroupErrorRule, data, now)
        == [Card(GroupErrorRule, GroupHead + h.group + GroupMiddle + h.error + GroupTail, h.count, now)]
  {
    var h := GroupErrorMatch(GroupStudents(data.students)).value;
    GroupErrorMatchPositive(GroupStudents(data.students));
    HitGroupName(data.students);
    var j :| 0 <= j < |TierNames| && h.group == TierNames[j];
    TierNamesPlain(j);
    GroupErrorText(h);
    GroupErrorAffected(h);
    FiredIs(GroupErrorRule, data, now, GroupContext(h), GroupHead + h.group + GroupMiddle + h.error + GroupTail);
  }

  lemma GroupErrorTitle(g: string, e: string)
    requires '.' !in g
    ensures Before(GroupHead + g + GroupMiddle + e + GroupTail, '.') == GroupHead + g + GroupMiddle + Before(e, '.')
  {
    GroupPieces();
    GroupMiddlePieces();
    GroupTailPieces();
    TitleOf(GroupHead + g + GroupMiddle, e, GroupTail);
  }

  // The individual cards.

  function StudentsContext(r: seq<Student>): Context {
    [("students", StudentList(r)), ("count", Num(|r|))]
  }

  /** `{students}` and `{count}` do not occur in a text opening with `{student}` and
      holding no other `{`. */
  lemma StudentPlaceholdersAbsent(rest: string)
    requires '{' !in rest
    ensures !Contains("{student}" + rest, Placeholder("students"))
    ensures !Contains("{student}" + rest, Placeholder("count"))
  {
    var s := "{" + "student}" + rest;
    assert "{student}" + rest == s;
    assert s[1] == 's' && s[8] == '}';
    assert !OccursAt(s, Placeholder("students"), 0) by {
      assert Placeholder("students")[8] == 's';
      assert |Placeholder("students")| <= |s| ==> s[..|Placeholder("students")|][8] == s[8];
    }
    assert !OccursAt(s, Placeholder("count"), 0) by {
      assert Placeholder("count")[1] == 'c';
      assert |Placeholder("count")| <= |s| ==> s[..|Placeholder("count")|][1] == s[1];
    }
    BraceOnlyAtStart("student}", rest, Placeholder("students"));
    BraceOnlyAtStart("student}", rest, Placeholder("count"));
  }

  /** The individual templates keep their literal `{student}`: the context's key is
      `students`, so nothing in them is replaced. */
  lemma StudentTemplateUntouched(rest: string, r: seq<Student>)
    requires '{' !in rest
    ensures Fill("{student}" + rest, StudentsContext(r)) == "{student}" + rest
  {
    StudentPlaceholdersAbsent(rest);
    FillUntouched("{student}" + rest, StudentsContext(r));
  }

  /** The list's length is the affected number. */
  lemma StudentsAffected(r: seq<Student>)
    ensures AffectedCount(StudentsContext(r)) == |r|
  {
    var ctx := StudentsContext(r);
    assert "students" != "count" by {
      assert "students"[0] != "count"[0];
    }
    assert ctx[1..] == [("count", Num(|r|))];
    assert Lookup(ctx, "count") == Lookup(ctx[1..], "count") == Some(Num(|r|));
    assert Lookup(ctx, "students") == Some(StudentList(r));
  }

  lemma AtRiskPieces()
    ensures OpeningPiece(AtRiskHead)
  {
  }

  lemma AtRiskTailPieces()
    ensures ClosingPiece(AtRiskTail)
  {
  }

  /** The at-risk card: its text unchanged, the number of at-risk students as the
      affected number. */
  lemma AtRiskCard(data: ClassData, now: nat)
    requires TriggerOutcome(AtRiskRule, data).Met?
    ensures var n := |Filter(data.students, AtRisk)|;
      Fired(AtRiskRule, data, now) == [Card(AtRiskRule, "{student}" + AtRiskHead + AtRiskTail, n, now)]
  {
    var r := Filter(data.students, AtRisk);
    AtRiskPieces();
    AtRiskTailPieces();
    assert AtRiskRule.suggestion == "{student}" + (AtRiskHead + AtRiskTail);
    StudentTemplateUntouched(AtRiskHead + AtRiskTail, r);
    StudentsAffected(r);
    FiredIs(AtRiskRule, data, now, StudentsContext(r), "{student}" + AtRiskHead + AtRiskTail);
  }

  lemma ImprovementPieces()
    ensures OpeningPiece(ImprovementHead)
  {
  }

  lemma ImprovementTailPieces()
    ensures ClosingPiece(ImprovementTail)
  {
  }

  /** The improvement card: its text unchanged, the number of improved students as the
      affected number. */
  lemma ImprovementCard(data: ClassData, now: nat)
    requires TriggerOutcome(ImprovementRule, data).Met?
    ensures var n := |Filter(data.students, Improved)|;
      Fired(ImprovementRule, data, now)
        == [Card(ImprovementRule, "{student}" + ImprovementHead + ImprovementTail, n, now)]
  {
    var r := Filter(data.students, Improved);
    ImprovementPieces();
    ImprovementTailPieces();
    assert ImprovementRule.suggestion == "{student}" + (ImprovementHead + ImprovementTail);
    StudentTemplateUntouched(ImprovementHead + ImprovementTail, r);
    StudentsAffected(r);
    FiredIs(ImprovementRule, data, now, StudentsContext(r), "{student}" + ImprovementHead + ImprovementTail);
  }

  /** The individual cards are titled `{student}` and the sentence's head. */
  lemma StudentTitle(head: string, tail: string)
    requires '.' !in head && 0 < |tail| && tail[0] == '.'
    ensures Before("{student}" + head + tail, '.') == "{student}" + head
  {
    TitleOf("{student}" + head, "", tail);
    assert "{student}" + head + "" + tail == "{student}" + head + tail;
    BeforeIs("", '.', 0);
  }

  // The topic card.

  lemma TopicPieces()
    ensures OpeningPiece(TopicHead)
  {
  }

  lemma TopicTailPieces()
    ensures ClosingPiece(TopicTail)
  {
  }

  lemma MockTopicPlain()
    ensures Plain(MockTopic) && '.' !in MockTopic
  {
  }

  /** The fixed topic fills `{topic}`; the template has no `{mastery}`. */
  lemma TopicText()
    ensures Fill(TopicRule.suggestion, [("topic", Str(MockTopic)), ("mastery", Num(MockTopicMastery))])
      == TopicHead + MockTopic + TopicTail
  {
    TopicPieces();
    TopicTailPieces();
    MockTopicPlain();
    Placeholders();
    FillFirst(TopicHead, "topic", TopicTail, [("topic", Str(MockTopic)), ("mastery", Num(MockTopicMastery))]);
  }

  /** The topic rule always fires: the fixed topic in the text, nobody affected. */
  lemma TopicCard(data: ClassData, now: nat)
    ensures TriggerOutcome(TopicRule, data) == Met([("topic", Str(MockTopic)), ("mastery", Num(MockTopicMastery))])
    ensures Fired(TopicRule, data, now) == [Card(TopicRule, TopicHead + MockTopic + TopicTail, 0, now)]
  {
    var ctx := [("topic", Str(MockTopic)), ("mastery", Num(MockTopicMastery))];
    TopicOutcome(data);
    TopicText();
    TopicKeys();
    AffectedNone(ctx);
    FiredIs(TopicRule, data, now, ctx, TopicHead + MockTopic + TopicTail);
  }

  lemma TopicOutcome(data: ClassData)
    ensures TriggerOutcome(TopicRule, data) == Met([("topic", Str(MockTopic)), ("mastery", Num(MockTopicMastery))])
  {
  }

  lemma TopicKeys()
    ensures "topic" != "count" && "topic" != "students" && "mastery" != "count" && "mastery" != "students"
  {
    assert "topic"[0] != "count"[0] && "topic"[0] != "students"[0]
      && "mastery"[0] != "count"[0] && "mastery"[0] != "students"[0];
  }

  lemma TopicTitle()
    ensures Before(TopicHead + MockTopic + TopicTail, '.') == TopicHead + MockTopic
  {
    TopicPieces();
    TopicTailPieces();
    MockTopicPlain();
    TitleOf(TopicHead, MockTopic, TopicTail);
    BeforeIs(MockTopic, '.', |MockTopic|);
  }

  // ---------------------------------------------------------------------------
  // The output list
  // ---------------------------------------------------------------------------

  /** A rule gives one card when it fires and none otherwise, and its card carries the
      rule's priority. */
  lemma FiredShape(data: ClassData, now: nat)
    ensures forall r :: |FiredFor(data, now)(r)| == Indicator(FiresOn(data)(r))
    ensures forall r, c :: c in FiredFor(data, now)(r) ==> c.priority == r.priority
  {
  }

  /** `r => checkTrigger(r, data).met`. */
  function FiresOn(data: ClassData): TriggerRule -> bool {
    r => TriggerOutcome(r, data).Met?
  }

  /** One card per rule that fires. */
  lemma CollectedLength(rules: seq<TriggerRule>, data: ClassData, now: nat)
    ensures |Collected(rules, data, now)| == |Filter(rules, FiresOn(data))|
  {
    FiredShape(data, now);
    FlatMapLength(rules, FiredFor(data, now), FiresOn(data));
  }

  /** The priorities strictly decrease along the list. */
  ghost predicate StrictlyByPriority(cards: seq<Suggestion>) {
    forall i, j :: 0 <= i < j < |cards| ==> cards[i].priority > cards[j].priority
  }

  /** Two strictly decreasing lists, everything in the first above everything in the
      second, make a strictly decreasing list. */
  lemma StrictAppend(a: seq<Suggestion>, b: seq<Suggestion>)
    requires StrictlyByPriority(a) && StrictlyByPriority(b)
    requires forall x, y :: x in a && y in b ==> x.priority > y.priority
    ensures StrictlyByPriority(a + b)
  {
    forall i, j | 0 <= i < j < |a + b|
      ensures (a + b)[i].priority > (a + b)[j].priority
    {
      if i < |a| && j >= |a| {
        assert (a + b)[i] == a[i] && (a + b)[j] == b[j - |a|];
      }
    }
  }

  /** Rules listed by strictly decreasing priority, each giving at most one card with its
      own priority, give cards in strictly decreasing priority. */
  lemma {:induction false} FlatMapStrict(rules: seq<TriggerRule>, f: TriggerRule -> seq<Suggestion>)
    requires forall i, j :: 0 <= i < j < |rules| ==> rules[i].priority > rules[j].priority
    requires forall r :: |f(r)| <= 1
    requires forall r, c :: c in f(r) ==> c.priority == r.priority
    ensures StrictlyByPriority(FlatMap(rules, f))
    decreases |rules|
  {
    if |rules| > 0 {
      var init, last := rules[..|rules| - 1], rules[|rules| - 1];
      FlatMapStrict(init, f);
      forall x, y | x in FlatMap(init, f) && y in f(last)
        ensures x.priority > y.priority
      {
        var i := FlatMapFrom(init, f, x);
        assert rules[i] == init[i];
      }
      assert |f(last)| <= 1;
      StrictAppend(FlatMap(init, f), f(last));
    }
  }

  /** Strictly decreasing priorities: sorted, no two alike. */
  lemma StrictSorted(cards: seq<Suggestion>)
    requires StrictlyByPriority(cards)
    ensures SortedDesc(cards, PriorityKey) && DistinctKeys(cards, PriorityKey)
  {
  }

  /** The catalog by priority, highest first. */
  const RulesByPriority: seq<TriggerRule> :=
    [AtRiskRule, CommonErrorRule, GroupErrorRule, VarianceRule, ImprovementRule, TopicRule]

  lemma PrioritiesStrict()
    ensures forall i, j :: 0 <= i < j < |RulesByPriority| ==> RulesByPriority[i].priority > RulesByPriority[j].priority
  {
  }

  /** What six elements yield, element by element. */
  lemma FlatMapSix<T, U>(f: T -> seq<U>, a: T, b: T, c: T, d: T, e: T, g: T)
    ensures FlatMap([a, b, c, d, e, g], f) == f(a) + f(b) + f(c) + f(d) + f(e) + f(g)
  {
    FlatMapSnoc([a, b, c, d, e], g, f);
    FlatMapSnoc([a, b, c, d], e, f);
    FlatMapSnoc([a, b, c], d, f);
    FlatMapSnoc([a, b], c, f);
    FlatMapSnoc([a], b, f);
    FlatMapSnoc([], a, f);
    assert [a, b, c, d, e] + [g] == [a, b, c, d, e, g];
    assert [a, b, c, d] + [e] == [a, b, c, d, e];
    assert [a, b, c] + [d] == [a, b, c, d];
    assert [a, b] + [c] == [a, b, c];
    assert [a] + [b] == [a, b];
    assert [] + [a] == [a];
  }

  /** Listing the catalog by priority moves its fourth rule to the front and its first
      rule to second place; what the rules yield is rearranged, nothing else. */
  lemma CatalogReorder<T, U>(f: T -> seq<U>, a: T, b: T, c: T, d: T, e: T, g: T)
    ensures multiset(FlatMap([a, b, c, d, e, g], f)) == multiset(FlatMap([d, a, c, b, e, g], f))
  {
    FlatMapSix(f, a, b, c, d, e, g);
    FlatMapSix(f, d, a, c, b, e, g);
    var A, B, C, D, E, G := f(a), f(b), f(c), f(d), f(e), f(g);
    assert multiset(A + B + C + D + E + G)
      == multiset(A) + multiset(B) + multiset(C) + multiset(D) + multiset(E) + multiset(G);
    assert multiset(D + A + C + B + E + G)
      == multiset(D) + multiset(A) + multiset(C) + multiset(B) + multiset(E) + multiset(G);
  }

  /** Sorting by priority always lists the cards in the fixed order at-risk, common error,
      group error, spread, improvement, topic: the priorities 10, 9, 8, 7, 5, 4 are
      distinct, so the sorted order is unique. */
  lemma SuggestionsByPriority(data: ClassData, now: nat)
    ensures Suggestions(data, now) == Collected(RulesByPriority, data, now)
    ensures StrictlyByPriority(Suggestions(data, now))
  {
    FiredShape(data, now);
    CatalogOrder(FiredFor(data, now));
  }

  /** For any way of turning rules into at most one card of the rule's own priority, sorting
      the catalog's cards gives them in the order of `RulesByPriority`. */
  lemma CatalogOrder(f: TriggerRule -> seq<Suggestion>)
    requires forall r :: |f(r)| <= 1
    requires forall r, c :: c in f(r) ==> c.priority == r.priority
    ensures SortDesc(FlatMap(TriggerRules, f), PriorityKey) == FlatMap(RulesByPriority, f)
    ensures StrictlyByPriority(FlatMap(RulesByPriority, f))
  {
    CatalogReorder(f, CommonErrorRule, VarianceRule, GroupErrorRule, AtRiskRule, ImprovementRule, TopicRule);
    PrioritiesStrict();
    FlatMapStrict(RulesByPriority, f);
    SortStrict(FlatMap(TriggerRules, f), FlatMap(RulesByPriority, f));
  }

  /** Sorting a rearrangement of a list whose priorities strictly decrease gives that list. */
  lemma SortStrict(u: seq<Suggestion>, a: seq<Suggestion>)
    requires multiset(u) == multiset(a) && StrictlyByPriority(a)
    ensures SortDesc(u, PriorityKey) == a
  {
    SortDescPermutes(u, PriorityKey);
    SortDescSorted(u, PriorityKey);
    StrictSorted(a);
    SortedUnique(a, SortDesc(u, PriorityKey), PriorityKey);
  }

  /** One card for each rule that fires, so between one (the topic card) and six. */
  lemma SuggestionsCount(data: ClassData, now: nat)
    ensures |Suggestions(data, now)| == |Filter(TriggerRules, FiresOn(data))|
    ensures 1 <= |Suggestions(data, now)| <= 6
  {
    SortDescLength(Collected(TriggerRules, data, now), PriorityKey);
    CollectedLength(TriggerRules, data, now);
    TopicCard(data, now);
    FlatMapHas(TriggerRules, 5, FiredFor(data, now), Card(TopicRule, TopicHead + MockTopic + TopicTail, 0, now));
  }

  /** The topic card, with the lowest priority, always comes last. */
  lemma TopicCardLast(data: ClassData, now: nat)
    ensures 0 < |Suggestions(data, now)|
    ensures Suggestions(data, now)[|Suggestions(data, now)| - 1]
      == Card(TopicRule, TopicHead + MockTopic + TopicTail, 0, now)
  {
    SuggestionsByPriority(data, now);
    assert RulesByPriority == RulesByPriority[..5] + [TopicRule];
    FlatMapSnoc(RulesByPriority[..5], TopicRule, FiredFor(data, now));
    TopicCard(data, now);
  }

  /** Every card is the card of a catalog rule that fires, and every firing rule's card is
      in the output. */
  lemma SuggestionsFromRules(data: ClassData, now: nat, c: Suggestion)
    ensures c in Suggestions(data, now) <==>
      exists i :: 0 <= i < |TriggerRules| && c in Fired(TriggerRules[i], data, now)
  {
    var unsorted := Collected(TriggerRules, data, now);
    SortDescPermutes(unsorted, PriorityKey);
    assert c in Suggestions(data, now) <==> c in multiset(Suggestions(data, now));
    if c in unsorted {
      var i := FlatMapFrom(TriggerRules, FiredFor(data, now), c);
    }
    if exists i :: 0 <= i < |TriggerRules| && c in Fired(TriggerRules[i], data, now) {
      var i :| 0 <= i < |TriggerRules| && c in Fired(TriggerRules[i], data, now);
      FlatMapHas(TriggerRules, i, FiredFor(data, now), c);
    }
  }

  /** Each card's fields come from its rule: the title is the filled text's first sentence,
      the id is the rule's id with the time suffix, type, label and icon follow the action
      type, and the card is marked as generated. */
  lemma CardFields(data: ClassData, now: nat, c: Suggestion)
    requires c in Suggestions(data, now)
    ensures exists i :: 0 <= i < |TriggerRules| && FiredCard(c, TriggerRules[i], data, now)
  {
    SuggestionsFromRules(data, now, c);
  }

  /** `rule` fires on `data` and `c` is its card. */
  ghost predicate FiredCard(c: Suggestion, rule: TriggerRule, data: ClassData, now: nat) {
    TriggerOutcome(rule, data).Met? && CardFrom(c, rule, TriggerOutcome(rule, data).context, now)
  }

  /** `c` is the card `rule` gives for the context `ctx` at time `now`, field by field. */
  ghost predicate CardFrom(c: Suggestion, rule: TriggerRule, ctx: Context, now: nat) {
    && c.description == Fill(rule.suggestion, ctx) && c.title == Before(c.description, '.')
    && c.id == rule.id + "_" + NatToString(now) && c.triggerRule == rule.id
    && c.kind == SuggestionType(rule.actionType) && c.action == ActionLabel(rule.actionType)
    && c.icon == ActionIcon(rule.actionType) && c.priority == rule.priority
    && c.affectedCount == AffectedCount(ctx) && c.estimatedImpact == rule.estimatedImpact
    && c.autoGenerated
  }

  /** The two cards agree on everything except possibly their ids. */
  ghost predicate SameButIds(a: seq<Suggestion>, b: seq<Suggestion>) {
    |a| == |b| && forall k :: 0 <= k < |a| ==> a[k].(id := "") == b[k].(id := "")
  }

  lemma SameButIdsAppend(a1: seq<Suggestion>, b1: seq<Suggestion>, a2: seq<Suggestion>, b2: seq<Suggestion>)
    requires SameButIds(a1, b1) && SameButIds(a2, b2)
    ensures SameButIds(a1 + a2, b1 + b2)
  {
    forall k | 0 <= k < |a1 + a2|
      ensures (a1 + a2)[k].(id := "") == (b1 + b2)[k].(id := "")
    {
      if k >= |a1| {
        assert (a1 + a2)[k] == a2[k - |a1|] && (b1 + b2)[k] == b2[k - |b1|];
      }
    }
  }

  lemma {:induction false} FlatMapSameButIds(rules: seq<TriggerRule>, f1: TriggerRule -> seq<Suggestion>,
                                              f2: TriggerRule -> seq<Suggestion>)
    requires forall r :: SameButIds(f1(r), f2(r))
    ensures SameButIds(FlatMap(rules, f1), FlatMap(rules, f2))
    decreases |rules|
  {
    if |rules| > 0 {
      FlatMapSameButIds(rules[..|rules| - 1], f1, f2);
      SameButIdsAppend(FlatMap(rules[..|rules| - 1], f1), FlatMap(rules[..|rules| - 1], f2),
                       f1(rules[|rules| - 1]), f2(rules[|rules| - 1]));
    }
  }

  /** Apart from the `Date.now()` suffix of the ids, the output depends on the class data
      alone. */
  lemma OnlyIdsDependOnTime(data: ClassData, now1: nat, now2: nat)
    ensures SameButIds(Suggestions(data, now1), Suggestions(data, now2))
  {
    SuggestionsByPriority(data, now1);
    SuggestionsByPriority(data, now2);
    forall r
      ensures SameButIds(FiredFor(data, now1)(r), FiredFor(data, now2)(r))
    {
    }
    FlatMapSameButIds(RulesByPriority, FiredFor(data, now1), FiredFor(data, now2));
  }
}
