/** The message composer of the dashboard: the message type guessed from the recipient
    list, the four message templates and the choice among them, `{{token}}` filling of a
    template for a recipient, the personalised preview, and the check `handleSend` makes
    before a message goes out. */
module ActionComposer {
  import opened Wrappers
  import opened Seqs
  import opened Text

  // ---------------------------------------------------------------------------
  // Data model
  // ---------------------------------------------------------------------------

  datatype RecipientKind = StudentRecipient | ParentRecipient | GroupRecipient

  /** A recipient; an absent `group` is the empty string, which JavaScript treats as
      false just as it treats `undefined`. */
  datatype Recipient = Recipient(id: string, name: string, kind: RecipientKind, group: string)

  /** The `messageType` state, one of "class", "group", "individual" and "parent". */
  datatype MessageType = ClassMessage | GroupMessage | IndividualMessage | ParentMessage

  datatype MessageTemplate = MessageTemplate(
    id: string, name: string, kind: MessageType, subject: string, content: string,
    attachments: seq<string>)

  /** The optional `context` property; an absent value is the empty string. */
  datatype ComposeContext = ComposeContext(errorTag: string, topic: string)

  /** What `handleSend` hands to `onSend`, without its timestamp. */
  datatype Message = Message(kind: MessageType, subject: string, content: string,
                             recipients: seq<string>)

  // ---------------------------------------------------------------------------
  // Message type from the recipients
  // ---------------------------------------------------------------------------

  /** `r.type === "student" && r.group`. */
  predicate GroupedStudent(r: Recipient) {
    r.kind == StudentRecipient && r.group != ""
  }

  /** The recipient effect: one student is an individual message, students who all have a
      group make a group message, any parent makes a parent message, anything else is a
      class message; an empty list keeps the current type. */
  function DetectedType(rs: seq<Recipient>, current: MessageType): (t: MessageType)
    ensures |rs| == 0 ==> t == current
    ensures |rs| > 0 ==> (t == IndividualMessage <==> |rs| == 1 && rs[0].kind == StudentRecipient)
    ensures |rs| > 0 ==>
      (t == GroupMessage <==> 2 <= |rs| && forall i :: 0 <= i < |rs| ==> GroupedStudent(rs[i]))
    ensures |rs| > 0 ==>
      (t == ParentMessage <==> exists i :: 0 <= i < |rs| && rs[i].kind == ParentRecipient)
    ensures |rs| > 0 ==>
      (t == ClassMessage <==>
        && !(|rs| == 1 && rs[0].kind == StudentRecipient)
        && (exists i :: 0 <= i < |rs| && !GroupedStudent(rs[i]))
        && forall i :: 0 <= i < |rs| ==> rs[i].kind != ParentRecipient)
  {
    if |rs| == 0 then current
    else if |rs| == 1 && rs[0].kind == StudentRecipient then IndividualMessage
    else if forall i :: 0 <= i < |rs| ==> GroupedStudent(rs[i]) then GroupMessage
    else if exists i :: 0 <= i < |rs| && rs[i].kind == ParentRecipient then ParentMessage
    else ClassMessage
  }

  // ---------------------------------------------------------------------------
  // Templates
  // ---------------------------------------------------------------------------

  const ClassAnnouncement := MessageTemplate(
    "class_announcement", "Thông báo lớp", ClassMessage,
    "Cả lớp chú ý: Lỗi sai phổ biến trong bài kiểm tra",
    "Chào cả lớp, qua bài kiểm tra \"{{topic}}\", cô thấy có tới " +
    "{{percentage}}% bạn mắc lỗi \"{{error_tag}}\". Đây là kiến thức quan " +
    "trọng. Cô đã gửi một tài liệu ôn tập ngắn và 5 bài tập luyện thêm " +
    "trong mục \"Bài tập\". Các em hãy hoàn thành trước buổi học tới nhé!",
    ["Tài liệu ôn tập", "Bài tập luyện"])

  const GroupRemediation := MessageTemplate(
    "group_remediation", "Can thiệp nhóm", GroupMessage,
    "Bài tập củng cố cho {{group_name}}",
    "Chào {{student_name}}, trong bài vừa rồi, nhóm của các em đang gặp một " +
    "số khó khăn chung về \"{{error_tag}}\". Cô đã tạo một lộ trình ôn tập " +
    "ngắn gồm 1 video hướng dẫn và 6 câu hỏi luyện tập. Em hãy dành 15 phút " +
    "để hoàn thành nhé.",
    ["Video hướng dẫn", "Bài tập luyện"])

  const IndividualFeedback := MessageTemplate(
    "individual_feedback", "Phản hồi cá nhân", IndividualMessage,
    "Nhận xét bài làm của {{student_name}}",
    "Chào {{student_name}}, cô đã xem bài của em. Em làm tốt phần " +
    "{{good_points}}, tuy nhiên em đã mắc lỗi \"{{error_tag}}\" ở câu " +
    "{{question_number}}. Hãy xem lại ví dụ về lỗi sai của em và làm 3 bài " +
    "tập tương tự để khắc phục nhé. Cố lên!",
    ["Ví dụ lỗi sai", "Bài tập khắc phục"])

  const ParentNote := MessageTemplate(
    "parent_note", "Thông báo phụ huynh", ParentMessage,
    "Cập nhật tình hình học tập của em {{student_name}}",
    "Chào Anh/Chị, trong bài kiểm tra Toán gần đây, em {{student_name}} đạt " +
    "{{score}} điểm. Điểm mạnh của em là {{strengths}}. Tuy nhiên, em đang " +
    "gặp khó khăn với kiến thức \"{{error_tag}}\". Giáo viên đã gửi bài tập " +
    "bổ sung và nhờ Anh/Chị động viên em dành khoảng 15 phút mỗi tối để ôn " +
    "tập cùng con.",
    ["Báo cáo chi tiết", "Hướng dẫn gia đình"])
  const Templates: seq<MessageTemplate> :=
    [ClassAnnouncement, GroupRemediation, IndividualFeedback, ParentNote]

  function HasId(id: string): MessageTemplate -> bool {
    (t: MessageTemplate) => t.id == id
  }

  function HasKind(k: MessageType): MessageTemplate -> bool {
    (t: MessageTemplate) => t.kind == k
  }

  /** `messageTemplates.find(t => t.id === id)`. */
  function TemplateById(id: string): (r: Option<MessageTemplate>)
    ensures r.Some? ==> r.value in Templates && r.value.id == id
    ensures r.None? <==> forall i :: 0 <= i < |Templates| ==> Templates[i].id != id
  {
    Find(Templates, HasId(id))
  }

  /** The ids are distinct, so each template is found by its own id. */
  lemma TemplateByOwnId(i: nat)
    requires i < |Templates|
    ensures TemplateById(Templates[i].id) == Some(Templates[i])
  {
    var id := Templates[i].id;
    FindFirstIs(Templates, HasId(id), i);
  }

  lemma TemplateKinds()
    ensures ClassAnnouncement.kind == ClassMessage && GroupRemediation.kind == GroupMessage
    ensures IndividualFeedback.kind == IndividualMessage && ParentNote.kind == ParentMessage
  {
  }

  lemma FilterFour<T>(a: T, b: T, c: T, d: T, f: T -> bool)
    ensures Filter([a, b, c, d], f)
      == (if f(a) then [a] else []) + (if f(b) then [b] else []) + (if f(c) then [c] else [])
         + (if f(d) then [d] else [])
  {
    assert [a, b, c, d][..3] == [a, b, c];
    assert [a, b, c][..2] == [a, b];
    assert [a, b][..1] == [a];
    assert [a][..0] == [];
    assert Filter([a], f) == (if f(a) then [a] else []);
    assert Filter([a, b], f) == Filter([a], f) + (if f(b) then [b] else []);
    assert Filter([a, b, c], f) == Filter([a, b], f) + (if f(c) then [c] else []);
    assert Filter([a, b, c, d], f) == Filter([a, b, c], f) + (if f(d) then [d] else []);
  }

  /** Every message type has exactly one template. */
  lemma OneTemplatePerType(k: MessageType)
    ensures |Filter(Templates, HasKind(k))| == 1
  {
    TemplateKinds();
    FilterFour(ClassAnnouncement, GroupRemediation, IndividualFeedback, ParentNote, HasKind(k));
  }

  // ---------------------------------------------------------------------------
  // Filling `{{token}}` placeholders
  // ---------------------------------------------------------------------------

  /** `{{name}}`. */
  function Marker(name: string): string {
    "{{" + name + "}}"
  }

  const ErrorTagToken := Marker("error_tag")
  const TopicToken := Marker("topic")
  const StudentNameToken := Marker("student_name")
  const GroupNameToken := Marker("group_name")
  const PercentageToken := Marker("percentage")
  const ScoreToken := Marker("score")
  const QuestionNumberToken := Marker("question_number")
  const GoodPointsToken := Marker("good_points")
  const StrengthsToken := Marker("strengths")

  const AllTokens: seq<string> := [
    ErrorTagToken, TopicToken, StudentNameToken, GroupNameToken,
    PercentageToken, ScoreToken, QuestionNumberToken, GoodPointsToken, StrengthsToken]

  // The fixed sample values.
  const SamplePercentage := "35"
  const SampleScore := "4.5"
  const SampleQuestionNumber := "5"
  const SampleGoodPoints := "giải hệ phương trình cơ bản"
  const SampleStrengths := "tính toán cẩn thận, trình bày rõ ràng"

  /** One `filled = filled.replace(/token/g, value)`. */
  datatype Step = Step(token: string, value: string)

  predicate TokenSteps(steps: seq<Step>) {
    forall i :: 0 <= i < |steps| ==> IsToken(steps[i].token)
  }

  /** The replacements applied one after another. */
  function ApplyAll(s: string, steps: seq<Step>): string
    requires TokenSteps(steps)
    decreases |steps|
  {
    if |steps| == 0 then s
    else ApplyAll(ReplaceAll(s, steps[0].token, steps[0].value), steps[1..])
  }

  /** The context values, each only when it is non-empty. */
  function ContextSteps(ctx: ComposeContext): seq<Step> {
    (if ctx.errorTag != "" then [Step(ErrorTagToken, ctx.errorTag)] else [])
    + (if ctx.topic != "" then [Step(TopicToken, ctx.topic)] else [])
  }

  /** The recipient's name and group, only when there is a recipient. */
  function RecipientSteps(recipient: Option<Recipient>): seq<Step> {
    match recipient
    case Some(r) => [Step(StudentNameToken, r.name), Step(GroupNameToken, r.group)]
    case None => []
  }

  const SampleSteps: seq<Step> := [
    Step(PercentageToken, SamplePercentage), Step(ScoreToken, SampleScore),
    Step(QuestionNumberToken, SampleQuestionNumber), Step(GoodPointsToken, SampleGoodPoints),
    Step(StrengthsToken, SampleStrengths)]

  /** Every replacement `fillTemplate` makes, in its order. */
  function Steps(ctx: ComposeContext, recipient: Option<Recipient>): seq<Step> {
    ContextSteps(ctx) + RecipientSteps(recipient) + SampleSteps
  }

  /** `fillTemplate(text, recipient)` under the context `ctx`. */
  function Fill(text: string, ctx: ComposeContext, recipient: Option<Recipient>): string {
    StepTokens(ctx, recipient);
    ApplyAll(text, Steps(ctx, recipient))
  }

  /** Each token is a `{{name}}` token. */
  lemma AllTokensAreTokens()
    ensures forall t :: t in AllTokens ==> IsToken(t)
  {
    ErrorTagIsToken();
    TopicIsToken();
    StudentNameIsToken();
    GroupNameIsToken();
    PercentageIsToken();
    ScoreIsToken();
    QuestionNumberIsToken();
    GoodPointsIsToken();
    StrengthsIsToken();
  }

  lemma ErrorTagIsToken()
    ensures IsToken(ErrorTagToken)
  {
    MarkerToken("error_tag");
  }

  lemma TopicIsToken()
    ensures IsToken(TopicToken)
  {
    MarkerToken("topic");
  }

  lemma StudentNameIsToken()
    ensures IsToken(StudentNameToken)
  {
    MarkerToken("student_name");
  }

  lemma GroupNameIsToken()
    ensures IsToken(GroupNameToken)
  {
    MarkerToken("group_name");
  }

  lemma PercentageIsToken()
    ensures IsToken(PercentageToken)
  {
    MarkerToken("percentage");
  }

  lemma ScoreIsToken()
    ensures IsToken(ScoreToken)
  {
    MarkerToken("score");
  }

  lemma QuestionNumberIsToken()
    ensures IsToken(QuestionNumberToken)
  {
    MarkerToken("question_number");
  }

  lemma GoodPointsIsToken()
    ensures IsToken(GoodPointsToken)
  {
    MarkerToken("good_points");
  }

  lemma StrengthsIsToken()
    ensures IsToken(StrengthsToken)
  {
    MarkerToken("strengths");
  }

  /** A brace-free name between double braces is a token. */
  lemma MarkerToken(name: string)
    requires BraceFree(name)
    ensures IsToken(Marker(name))
  {
    var t := Marker(name);
    forall i | 2 <= i < |t| - 2
      ensures t[i] != '{' && t[i] != '}'
    {
      assert t[i] == name[i - 2];
    }
  }

  /** The tokens `fillTemplate` replaces, and which of them depends on what. */
  lemma StepTokens(ctx: ComposeContext, recipient: Option<Recipient>)
    ensures TokenSteps(Steps(ctx, recipient))
    ensures forall i :: 0 <= i < |Steps(ctx, recipient)| ==> Steps(ctx, recipient)[i].token in AllTokens
  {
    AllTokensAreTokens();
  }

  /** Replacing in two batches is replacing in one. */
  lemma {:induction false} ApplyAllConcat(s: string, a: seq<Step>, b: seq<Step>)
    requires TokenSteps(a) && TokenSteps(b)
    ensures TokenSteps(a + b)
    ensures ApplyAll(s, a + b) == ApplyAll(ApplyAll(s, a), b)
    decreases |a|
  {
    if |a| > 0 {
      assert (a + b)[1..] == a[1..] + b;
      ApplyAllConcat(ReplaceAll(s, a[0].token, a[0].value), a[1..], b);
    } else {
      assert a + b == b;
    }
  }

  /** A text holding none of the tokens comes back unchanged. */
  lemma {:induction false} ApplyAllAbsent(s: string, steps: seq<Step>)
    requires TokenSteps(steps)
    requires forall i :: 0 <= i < |steps| ==> !Contains(s, steps[i].token)
    ensures ApplyAll(s, steps) == s
    decreases |steps|
  {
    if |steps| > 0 {
      ReplaceAllAbsent(s, steps[0].token, steps[0].value);
      ApplyAllAbsent(s, steps[1..]);
    }
  }

  /** A token no step replaces survives every step. */
  lemma {:induction false} ApplyAllKeeps(s: string, steps: seq<Step>, p: string)
    requires TokenSteps(steps) && IsToken(p) && Contains(s, p)
    requires forall i :: 0 <= i < |steps| ==> steps[i].token != p
    ensures Contains(ApplyAll(s, steps), p)
    decreases |steps|
  {
    if |steps| > 0 {
      ReplaceAllKeeps(s, steps[0].token, steps[0].value, p);
      ApplyAllKeeps(ReplaceAll(s, steps[0].token, steps[0].value), steps[1..], p);
    }
  }

  /** `v` cannot complete a `p` when put anywhere: no braces, no `$` pattern, and not a
      piece of `p`. */
  ghost predicate SafeFor(v: string, p: string) {
    BraceFree(v) && '$' !in v && !Contains(p, v)
  }

  /** An absent token stays absent when every value put in is safe for it. */
  lemma {:induction false} ApplyAllStaysOut(s: string, steps: seq<Step>, p: string)
    requires TokenSteps(steps) && IsToken(p) && !Contains(s, p)
    requires forall i :: 0 <= i < |steps| ==> SafeFor(steps[i].value, p)
    ensures !Contains(ApplyAll(s, steps), p)
    decreases |steps|
  {
    if |steps| > 0 {
      ReplaceAllNoOccurrence(s, steps[0].token, steps[0].value, p);
      ApplyAllStaysOut(ReplaceAll(s, steps[0].token, steps[0].value), steps[1..], p);
    }
  }

  /** A token that some step replaces is gone when that step's value and every later
      value are safe for it. */
  lemma {:induction false} ApplyAllRemoves(s: string, steps: seq<Step>, i: nat, p: string)
    requires TokenSteps(steps) && i < |steps| && steps[i].token == p
    requires forall j :: i <= j < |steps| ==> SafeFor(steps[j].value, p)
    ensures !Contains(ApplyAll(s, steps), p)
    decreases i
  {
    var s' := ReplaceAll(s, steps[0].token, steps[0].value);
    if i == 0 {
      ReplaceAllNoOccurrence(s, p, steps[0].value, p);
      ApplyAllStaysOut(s', steps[1..], p);
    } else {
      ApplyAllRemoves(s', steps[1..], i - 1, p);
    }
  }

  // The tokens are written with lower-case letters, `_` and braces; a value holding any
  // other character cannot be a piece of one.

  predicate TokenChar(c: char) {
    ('a' <= c <= 'z') || c == '_' || c == '{' || c == '}'
  }

  /** A value without braces or `$` that holds a character no token has. */
  ghost predicate Marked(v: string) {
    BraceFree(v) && '$' !in v && exists i :: 0 <= i < |v| && !TokenChar(v[i])
  }

  lemma MarkerChars(name: string)
    requires forall i :: 0 <= i < |name| ==> TokenChar(name[i])
    ensures forall i :: 0 <= i < |Marker(name)| ==> TokenChar(Marker(name)[i])
  {
    var t := Marker(name);
    forall i | 2 <= i < |t| - 2
      ensures TokenChar(t[i])
    {
      assert t[i] == name[i - 2];
    }
  }

  lemma TokenAlphabet()
    ensures forall t, i :: t in AllTokens && 0 <= i < |t| ==> TokenChar(t[i])
  {
    MarkerChars("error_tag");
    MarkerChars("topic");
    MarkerChars("student_name");
    MarkerChars("group_name");
    MarkerChars("percentage");
    MarkerChars("score");
    MarkerChars("question_number");
    MarkerChars("good_points");
    MarkerChars("strengths");
  }

  /** A marked value is safe for every token. */
  lemma MarkedSafe(v: string, p: string)
    requires Marked(v) && p in AllTokens
    ensures SafeFor(v, p)
  {
    TokenAlphabet();
    var i :| 0 <= i < |v| && !TokenChar(v[i]);
    assert v[i] !in p;
    ForeignCharNotContained(p, v, i);
  }

  lemma SampleValuesMarked()
    ensures forall j :: 0 <= j < |SampleSteps| ==> Marked(SampleSteps[j].value)
  {
    PercentageMarked();
    ScoreMarked();
    QuestionNumberMarked();
    GoodPointsMarked();
    StrengthsMarked();
  }

  lemma PercentageMarked()
    ensures Marked(SamplePercentage)
  {
    assert !TokenChar(SamplePercentage[0]);
  }

  lemma ScoreMarked()
    ensures Marked(SampleScore)
  {
    assert !TokenChar(SampleScore[0]);
  }

  lemma QuestionNumberMarked()
    ensures Marked(SampleQuestionNumber)
  {
    assert !TokenChar(SampleQuestionNumber[0]);
  }

  lemma GoodPointsMarked()
    ensures Marked(SampleGoodPoints)
  {
    GoodPointsNoOpen();
    GoodPointsNoClose();
    GoodPointsNoDollar();
    assert !TokenChar(SampleGoodPoints[2]);
  }

  // The two long sample values are checked one character class at a time.

  lemma GoodPointsNoOpen()
    ensures '{' !in SampleGoodPoints
  {
  }

  lemma GoodPointsNoClose()
    ensures '}' !in SampleGoodPoints
  {
  }

  lemma GoodPointsNoDollar()
    ensures '$' !in SampleGoodPoints
  {
  }

  lemma StrengthsMarked()
    ensures Marked(SampleStrengths)
  {
    StrengthsNoOpen();
    StrengthsNoClose();
    StrengthsNoDollar();
    assert !TokenChar(SampleStrengths[1]);
  }

  lemma StrengthsNoOpen()
    ensures '{' !in SampleStrengths
  {
  }

  lemma StrengthsNoClose()
    ensures '}' !in SampleStrengths
  {
  }

  lemma StrengthsNoDollar()
    ensures '$' !in SampleStrengths
  {
  }

  const TokenNames: seq<string> := [
    "error_tag", "topic", "student_name", "group_name",
    "percentage", "score", "question_number", "good_points", "strengths"]

  lemma MarkerInjective(a: string, b: string)
    requires a != b
    ensures Marker(a) != Marker(b)
  {
    assert Marker(a)[2..|Marker(a)| - 2] == a;
    assert Marker(b)[2..|Marker(b)| - 2] == b;
  }

  /** The nine tokens are distinct. */
  lemma TokensDistinct()
    ensures forall i, j :: 0 <= i < j < |AllTokens| ==> AllTokens[i] != AllTokens[j]
  {
    assert forall i, j :: 0 <= i < j < |TokenNames| ==> TokenNames[i] != TokenNames[j];
    assert forall i :: 0 <= i < |AllTokens| ==> AllTokens[i] == Marker(TokenNames[i]);
    forall i, j | 0 <= i < j < |AllTokens|
      ensures AllTokens[i] != AllTokens[j]
    {
      MarkerInjective(TokenNames[i], TokenNames[j]);
    }
  }

  /** The replacements `fillTemplate` makes come from the token list, each token at most
      once and in the list's order. */
  lemma StepParts(ctx: ComposeContext, recipient: Option<Recipient>)
    ensures TokenSteps(ContextSteps(ctx)) && TokenSteps(RecipientSteps(recipient))
    ensures TokenSteps(SampleSteps)
  {
    AllTokensAreTokens();
  }

  /** Every value put in is marked: the context values and the recipient's name and group
      by assumption, the sample values as written. */
  ghost predicate MarkedValues(ctx: ComposeContext, recipient: Option<Recipient>) {
    && (ctx.errorTag != "" ==> Marked(ctx.errorTag))
    && (ctx.topic != "" ==> Marked(ctx.topic))
    && (recipient.Some? ==> Marked(recipient.value.name) && Marked(recipient.value.group))
  }

  /** `fillTemplate` leaves none of the five sample tokens behind, whatever the text, the
      context and the recipient. */
  lemma FillRemovesSamples(text: string, ctx: ComposeContext, recipient: Option<Recipient>)
    ensures forall j :: 0 <= j < |SampleSteps| ==> !Contains(Fill(text, ctx, recipient), SampleSteps[j].token)
  {
    var pre := ContextSteps(ctx) + RecipientSteps(recipient);
    StepParts(ctx, recipient);
    ApplyAllConcat(text, ContextSteps(ctx), RecipientSteps(recipient));
    ApplyAllConcat(text, pre, SampleSteps);
    SampleValuesMarked();
    SampleTokensListed();
    ApplyAllRemovesEach(ApplyAll(text, pre), SampleSteps);
  }

  lemma SampleTokensListed()
    ensures forall j :: 0 <= j < |SampleSteps| ==> SampleSteps[j].token in AllTokens
  {
  }

  /** Replacements of listed tokens by marked values leave none of those tokens behind. */
  lemma ApplyAllRemovesEach(s: string, steps: seq<Step>)
    requires TokenSteps(steps)
    requires forall j :: 0 <= j < |steps| ==> Marked(steps[j].value) && steps[j].token in AllTokens
    ensures forall j :: 0 <= j < |steps| ==> !Contains(ApplyAll(s, steps), steps[j].token)
  {
    forall j | 0 <= j < |steps|
      ensures !Contains(ApplyAll(s, steps), steps[j].token)
    {
      var p := steps[j].token;
      forall m | j <= m < |steps|
        ensures SafeFor(steps[m].value, p)
      {
        MarkedSafe(steps[m].value, p);
      }
      ApplyAllRemoves(s, steps, j, p);
    }
  }

  /** With marked values, every token that has a value is gone from the filled text:
      `{{error_tag}}` and `{{topic}}` when the context gives them, `{{student_name}}` and
      `{{group_name}}` when there is a recipient. */
  lemma FillRemovesGiven(text: string, ctx: ComposeContext, recipient: Option<Recipient>)
    requires MarkedValues(ctx, recipient)
    ensures ctx.errorTag != "" ==> !Contains(Fill(text, ctx, recipient), ErrorTagToken)
    ensures ctx.topic != "" ==> !Contains(Fill(text, ctx, recipient), TopicToken)
    ensures recipient.Some? ==> !Contains(Fill(text, ctx, recipient), StudentNameToken)
    ensures recipient.Some? ==> !Contains(Fill(text, ctx, recipient), GroupNameToken)
  {
    StepTokens(ctx, recipient);
    StepValuesMarked(ctx, recipient);
    ReplacedTokensGone(text, Steps(ctx, recipient));
    StepPositions(ctx, recipient);
  }

  lemma StepValuesMarked(ctx: ComposeContext, recipient: Option<Recipient>)
    requires MarkedValues(ctx, recipient)
    ensures forall m :: 0 <= m < |Steps(ctx, recipient)| ==> Marked(Steps(ctx, recipient)[m].value)
  {
    var steps := Steps(ctx, recipient);
    SampleValuesMarked();
    var n := |ContextSteps(ctx)| + |RecipientSteps(recipient)|;
    forall m | n <= m < |steps|
      ensures Marked(steps[m].value)
    {
      assert steps[m] == SampleSteps[m - n];
    }
  }

  /** Where the tokens that depend on the context and the recipient sit among the steps. */
  lemma StepPositions(ctx: ComposeContext, recipient: Option<Recipient>)
    ensures ctx.errorTag != "" ==> Steps(ctx, recipient)[0].token == ErrorTagToken
    ensures ctx.topic != "" ==>
      Steps(ctx, recipient)[|ContextSteps(ctx)| - 1].token == TopicToken
    ensures recipient.Some? ==>
      && Steps(ctx, recipient)[|ContextSteps(ctx)|].token == StudentNameToken
      && Steps(ctx, recipient)[|ContextSteps(ctx)| + 1].token == GroupNameToken
  {
  }

  /** With every value marked, no replaced token is left. */
  lemma ReplacedTokensGone(text: string, steps: seq<Step>)
    requires TokenSteps(steps)
    requires forall m :: 0 <= m < |steps| ==> steps[m].token in AllTokens && Marked(steps[m].value)
    ensures forall i :: 0 <= i < |steps| ==> !Contains(ApplyAll(text, steps), steps[i].token)
  {
    forall i | 0 <= i < |steps|
      ensures !Contains(ApplyAll(text, steps), steps[i].token)
    {
      forall m | i <= m < |steps|
        ensures SafeFor(steps[m].value, steps[i].token)
      {
        MarkedSafe(steps[m].value, steps[i].token);
      }
      ApplyAllRemoves(text, steps, i, steps[i].token);
    }
  }

  /** No step replaces `p`. */
  predicate Avoids(steps: seq<Step>, p: string) {
    forall i :: 0 <= i < |steps| ==> steps[i].token != p
  }

  lemma AvoidsConcat(a: seq<Step>, b: seq<Step>, p: string)
    requires Avoids(a, p) && Avoids(b, p)
    ensures Avoids(a + b, p)
  {
    assert forall i :: |a| <= i < |a + b| ==> (a + b)[i] == b[i - |a|];
  }

  /** The sample steps, the recipient steps and the context steps never replace a token
      of another group, and a context token only when its value is given. */
  lemma StepsAvoid(ctx: ComposeContext, recipient: Option<Recipient>)
    ensures ctx.errorTag == "" ==> Avoids(ContextSteps(ctx), ErrorTagToken)
    ensures ctx.topic == "" ==> Avoids(ContextSteps(ctx), TopicToken)
    ensures Avoids(ContextSteps(ctx), StudentNameToken) && Avoids(ContextSteps(ctx), GroupNameToken)
    ensures Avoids(RecipientSteps(recipient), ErrorTagToken) && Avoids(RecipientSteps(recipient), TopicToken)
    ensures recipient.None? ==> Avoids(RecipientSteps(recipient), StudentNameToken)
    ensures recipient.None? ==> Avoids(RecipientSteps(recipient), GroupNameToken)
    ensures Avoids(SampleSteps, ErrorTagToken) && Avoids(SampleSteps, TopicToken)
    ensures Avoids(SampleSteps, StudentNameToken) && Avoids(SampleSteps, GroupNameToken)
  {
    TokensDistinct();
    assert AllTokens[0] == ErrorTagToken && AllTokens[1] == TopicToken;
    assert AllTokens[2] == StudentNameToken && AllTokens[3] == GroupNameToken;
    forall j, k | 0 <= j < |SampleSteps| && 0 <= k < 4
      ensures SampleSteps[j].token != AllTokens[k]
    {
      assert SampleSteps[j].token == AllTokens[j + 4];
    }
  }

  /** A context token whose value is missing is left as it stands. */
  lemma FillKeepsContextTokens(text: string, ctx: ComposeContext, recipient: Option<Recipient>)
    ensures ctx.errorTag == "" && Contains(text, ErrorTagToken) ==> Contains(Fill(text, ctx, recipient), ErrorTagToken)
    ensures ctx.topic == "" && Contains(text, TopicToken) ==> Contains(Fill(text, ctx, recipient), TopicToken)
  {
    StepTokens(ctx, recipient);
    StepsAvoid(ctx, recipient);
    AllTokensAreTokens();
    var a, b := ContextSteps(ctx), RecipientSteps(recipient);
    if ctx.errorTag == "" && Contains(text, ErrorTagToken) {
      KeepsThrough(text, a, b, ErrorTagToken);
    }
    if ctx.topic == "" && Contains(text, TopicToken) {
      KeepsThrough(text, a, b, TopicToken);
    }
  }

  /** Without a recipient, `{{student_name}}` and `{{group_name}}` are left as they stand. */
  lemma FillKeepsRecipientTokens(text: string, ctx: ComposeContext)
    ensures Contains(text, StudentNameToken) ==> Contains(Fill(text, ctx, None), StudentNameToken)
    ensures Contains(text, GroupNameToken) ==> Contains(Fill(text, ctx, None), GroupNameToken)
  {
    StepTokens(ctx, None);
    StepsAvoid(ctx, None);
    AllTokensAreTokens();
    var a, b := ContextSteps(ctx), RecipientSteps(None);
    if Contains(text, StudentNameToken) {
      KeepsThrough(text, a, b, StudentNameToken);
    }
    if Contains(text, GroupNameToken) {
      KeepsThrough(text, a, b, GroupNameToken);
    }
  }

  lemma KeepsThrough(text: string, a: seq<Step>, b: seq<Step>, p: string)
    requires TokenSteps(a + b + SampleSteps) && IsToken(p) && Contains(text, p)
    requires Avoids(a, p) && Avoids(b, p) && Avoids(SampleSteps, p)
    ensures Contains(ApplyAll(text, a + b + SampleSteps), p)
  {
    AvoidsConcat(a, b, p);
    AvoidsConcat(a + b, SampleSteps, p);
    ApplyAllKeeps(text, a + b + SampleSteps, p);
  }

  /** A text holding none of the nine tokens comes back unchanged. */
  lemma FillUnchanged(text: string, ctx: ComposeContext, recipient: Option<Recipient>)
    requires forall t :: t in AllTokens ==> !Contains(text, t)
    ensures Fill(text, ctx, recipient) == text
  {
    StepTokens(ctx, recipient);
    ApplyAllAbsent(text, Steps(ctx, recipient));
  }

  // ---------------------------------------------------------------------------
  // Previews and sending
  // ---------------------------------------------------------------------------

  /** One more replacement extends the chain by one `ReplaceAll`. */
  lemma ApplyAllSnoc(s: string, done: seq<Step>, st: Step)
    requires TokenSteps(done) && IsToken(st.token)
    ensures TokenSteps(done + [st])
    ensures ApplyAll(s, done + [st]) == ReplaceAll(ApplyAll(s, done), st.token, st.value)
  {
    ApplyAllConcat(s, done, [st]);
    assert [st][1..] == [];
  }

  /** A field `trim()` reduces to the empty string: nothing but white space. */
  predicate Blank(s: string) {
    forall i :: 0 <= i < |s| ==> IsJsSpace(s[i])
  }

  /** `recipients.map(r => r.id)`. */
  function Ids(rs: seq<Recipient>): (r: seq<string>)
    ensures |r| == |rs|
    ensures forall i :: 0 <= i < |rs| ==> r[i] == rs[i].id
  {
    if |rs| == 0 then [] else Ids(rs[..|rs| - 1]) + [rs[|rs| - 1].id]
  }

  /** What `handleSend` hands to `onSend`: nothing when the subject or the content is blank,
      otherwise the message as edited, addressed to every recipient in order. */
  function SendResult(kind: MessageType, subject: string, content: string,
                      recipients: seq<Recipient>): (r: Option<Message>)
    ensures r.None? <==> Blank(subject) || Blank(content)
    ensures r.Some? ==> r.value.kind == kind && r.value.subject == subject
                        && r.value.content == content
    ensures r.Some? ==> |r.value.recipients| == |recipients|
                        && forall i :: 0 <= i < |recipients| ==> r.value.recipients[i] == recipients[i].id
  {
    TrimEmptyIff(subject);
    TrimEmptyIff(content);
    if Trim(subject) == "" || Trim(content) == "" then None
    else Some(Message(kind, subject, content, Ids(recipients)))
  }

  /** `getPreviewContent()`: the filled subject and content for the chosen recipient while
      previewing, the text as edited otherwise. */
  function PreviewOf(subject: string, content: string, previewMode: bool,
                     selected: Option<Recipient>, ctx: ComposeContext): (r: (string, string))
  {
    if previewMode && selected.Some? then (Fill(subject, ctx, selected), Fill(content, ctx, selected))
    else (subject, content)
  }

  /** Outside preview, or with no recipient chosen, the preview is the text as edited; while
      previewing for a recipient it shows no sample token, and no name, group or given
      context token when the values put in are marked. */
  lemma PreviewShows(subject: string, content: string, previewMode: bool,
                     selected: Option<Recipient>, ctx: ComposeContext)
    ensures !previewMode || selected.None? ==> PreviewOf(subject, content, previewMode, selected, ctx) == (subject, content)
    ensures previewMode && selected.Some? ==>
              forall j :: 0 <= j < |SampleSteps| ==>
                && !Contains(PreviewOf(subject, content, previewMode, selected, ctx).0, SampleSteps[j].token)
                && !Contains(PreviewOf(subject, content, previewMode, selected, ctx).1, SampleSteps[j].token)
    ensures previewMode && selected.Some? && MarkedValues(ctx, selected) ==>
              && !Contains(PreviewOf(subject, content, previewMode, selected, ctx).0, StudentNameToken)
              && !Contains(PreviewOf(subject, content, previewMode, selected, ctx).1, StudentNameToken)
              && !Contains(PreviewOf(subject, content, previewMode, selected, ctx).0, GroupNameToken)
              && !Contains(PreviewOf(subject, content, previewMode, selected, ctx).1, GroupNameToken)
  {
    if previewMode && selected.Some? {
      FillRemovesSamples(subject, ctx, selected);
      FillRemovesSamples(content, ctx, selected);
      if MarkedValues(ctx, selected) {
        FillRemovesGiven(subject, ctx, selected);
        FillRemovesGiven(content, ctx, selected);
      }
    }
  }

  // ---------------------------------------------------------------------------
  // The composer dialog's state
  // ---------------------------------------------------------------------------

  /** The dialog: the recipients and context it is opened with and the six pieces of state
      it keeps. An empty `selectedTemplate` means none is chosen. */
  class Composer {
    var recipients: seq<Recipient>
    const context: ComposeContext
    var selectedTemplate: string
    var messageType: MessageType
    var subject: string
    var content: string
    var previewMode: bool
    var selectedRecipient: Option<Recipient>

    /** Opening the dialog: empty fields, `class` as the type, then the type detection run
        once for the recipients given. */
    constructor (recipients: seq<Recipient>, context: ComposeContext)
      ensures this.recipients == recipients && this.context == context
      ensures selectedTemplate == "" && subject == "" && content == ""
      ensures !previewMode && selectedRecipient == None
      ensures messageType == DetectedType(recipients, ClassMessage)
    {
      this.recipients := recipients;
      this.context := context;
      selectedTemplate := "";
      subject := "";
      content := "";
      previewMode := false;
      selectedRecipient := None;
      messageType := DetectedType(recipients, ClassMessage);
    }

    /** New recipients re-run the type detection; nothing else changes. */
    method SetRecipients(rs: seq<Recipient>)
      modifies this
      ensures recipients == rs && messageType == DetectedType(rs, old(messageType))
      ensures selectedTemplate == old(selectedTemplate) && subject == old(subject)
      ensures content == old(content) && previewMode == old(previewMode)
      ensures selectedRecipient == old(selectedRecipient)
    {
      recipients := rs;
      messageType := DetectedType(rs, messageType);
    }

    /** The type selector sets the type and nothing else. */
    method ChangeMessageType(t: MessageType)
      modifies this
      ensures messageType == t
      ensures recipients == old(recipients) && selectedTemplate == old(selectedTemplate)
      ensures subject == old(subject) && content == old(content)
      ensures previewMode == old(previewMode) && selectedRecipient == old(selectedRecipient)
    {
      messageType := t;
    }

    /** The templates the template selector offers: those of the current type. */
    function TemplateChoices(): (r: seq<MessageTemplate>)
      reads this
      ensures forall t :: t in r <==> t in Templates && t.kind == messageType
    {
      var f := HasKind(messageType);
      assert forall t :: t in Filter(Templates, f) <==> t in Templates && f(t) by {
        forall t
          ensures t in Filter(Templates, f) <==> t in Templates && f(t)
        {
          FilterMember(Templates, f, t);
        }
      }
      Filter(Templates, f)
    }

    /** Choosing a template records it; a change to a known template loads its subject and
        content over what was typed, anything else leaves them alone. */
    method SelectTemplate(id: string)
      modifies this
      ensures selectedTemplate == id
      ensures id != old(selectedTemplate) && id != "" && TemplateById(id).Some? ==>
                subject == TemplateById(id).value.subject && content == TemplateById(id).value.content
      ensures !(id != old(selectedTemplate) && id != "" && TemplateById(id).Some?) ==>
                subject == old(subject) && content == old(content)
      ensures recipients == old(recipients) && messageType == old(messageType)
      ensures previewMode == old(previewMode) && selectedRecipient == old(selectedRecipient)
    {
      var changed := id != selectedTemplate;
      selectedTemplate := id;
      if changed && id != "" {
        var template := TemplateById(id);
        if template.Some? {
          subject := template.value.subject;
          content := template.value.content;
        }
      }
    }

    method EditSubject(s: string)
      modifies this
      ensures subject == s
      ensures recipients == old(recipients) && selectedTemplate == old(selectedTemplate)
      ensures messageType == old(messageType) && content == old(content)
      ensures previewMode == old(previewMode) && selectedRecipient == old(selectedRecipient)
    {
      subject := s;
    }

    method EditContent(s: string)
      modifies this
      ensures content == s
      ensures recipients == old(recipients) && selectedTemplate == old(selectedTemplate)
      ensures messageType == old(messageType) && subject == old(subject)
      ensures previewMode == old(previewMode) && selectedRecipient == old(selectedRecipient)
    {
      content := s;
    }

    /** The preview button flips the preview flag; twice restores it. */
    method TogglePreview()
      modifies this
      ensures previewMode == !old(previewMode)
      ensures recipients == old(recipients) && selectedTemplate == old(selectedTemplate)
      ensures messageType == old(messageType) && subject == old(subject)
      ensures content == old(content) && selectedRecipient == old(selectedRecipient)
    {
      previewMode := !previewMode;
    }

    /** The preview recipient selector: the first recipient with that id, or none. */
    method ChooseRecipient(id: string)
      modifies this
      ensures selectedRecipient.Some? ==>
                exists k :: 0 <= k < |recipients| && recipients[k] == selectedRecipient.value
                            && recipients[k].id == id
                            && forall j :: 0 <= j < k ==> recipients[j].id != id
      ensures selectedRecipient.None? <==> forall k :: 0 <= k < |recipients| ==> recipients[k].id != id
      ensures recipients == old(recipients) && selectedTemplate == old(selectedTemplate)
      ensures messageType == old(messageType) && subject == old(subject)
      ensures content == old(content) && previewMode == old(previewMode)
    {
      var hasId := (r: Recipient) => r.id == id;
      selectedRecipient := Find(recipients, hasId);
      if selectedRecipient.Some? {
        var k :| 0 <= k < |recipients| && recipients[k] == selectedRecipient.value && hasId(recipients[k])
                 && forall m :: 0 <= m < k ==> !hasId(recipients[m]);
        assert recipients[k].id == id;
      }
    }

    /** `fillTemplate`: the replacements one after another, as `Fill` describes them. */
    method FillTemplate(text: string, recipient: Option<Recipient>) returns (filled: string)
      ensures filled == Fill(text, context, recipient)
    {
      StepTokens(context, recipient);
      ErrorTagIsToken();
      TopicIsToken();
      StudentNameIsToken();
      GroupNameIsToken();
      filled := text;
      ghost var done: seq<Step> := [];
      if context.errorTag != "" {
        ApplyAllSnoc(text, done, Step(ErrorTagToken, context.errorTag));
        filled := ReplaceAll(filled, ErrorTagToken, context.errorTag);
        done := done + [Step(ErrorTagToken, context.errorTag)];
      }
      if context.topic != "" {
        ApplyAllSnoc(text, done, Step(TopicToken, context.topic));
        filled := ReplaceAll(filled, TopicToken, context.topic);
        done := done + [Step(TopicToken, context.topic)];
      }
      assert done == ContextSteps(context);
      if recipient.Some? {
        ApplyAllSnoc(text, done, Step(StudentNameToken, recipient.value.name));
        filled := ReplaceAll(filled, StudentNameToken, recipient.value.name);
        done := done + [Step(StudentNameToken, recipient.value.name)];
        ApplyAllSnoc(text, done, Step(GroupNameToken, recipient.value.group));
        filled := ReplaceAll(filled, GroupNameToken, recipient.value.group);
        done := done + [Step(GroupNameToken, recipient.value.group)];
      }
      assert done == ContextSteps(context) + RecipientSteps(recipient);
      filled := FillSamples(text, done, filled);
    }

    /** The five sample replacements `fillTemplate` ends with. */
    static method FillSamples(ghost text: string, ghost done: seq<Step>, before: string) returns (filled: string)
      requires TokenSteps(done) && before == ApplyAll(text, done)
      ensures TokenSteps(done + SampleSteps)
      ensures filled == ApplyAll(text, done + SampleSteps)
    {
      PercentageIsToken();
      ScoreIsToken();
      QuestionNumberIsToken();
      GoodPointsIsToken();
      StrengthsIsToken();
      filled := before;
      ghost var steps := done;
      ApplyAllSnoc(text, steps, Step(PercentageToken, SamplePercentage));
      filled := ReplaceAll(filled, PercentageToken, SamplePercentage);
      steps := steps + [Step(PercentageToken, SamplePercentage)];
      ApplyAllSnoc(text, steps, Step(ScoreToken, SampleScore));
      filled := ReplaceAll(filled, ScoreToken, SampleScore);
      steps := steps + [Step(ScoreToken, SampleScore)];
      ApplyAllSnoc(text, steps, Step(QuestionNumberToken, SampleQuestionNumber));
      filled := ReplaceAll(filled, QuestionNumberToken, SampleQuestionNumber);
      steps := steps + [Step(QuestionNumberToken, SampleQuestionNumber)];
      ApplyAllSnoc(text, steps, Step(GoodPointsToken, SampleGoodPoints));
      filled := ReplaceAll(filled, GoodPointsToken, SampleGoodPoints);
      steps := steps + [Step(GoodPointsToken, SampleGoodPoints)];
      ApplyAllSnoc(text, steps, Step(StrengthsToken, SampleStrengths));
      filled := ReplaceAll(filled, StrengthsToken, SampleStrengths);
      steps := steps + [Step(StrengthsToken, SampleStrengths)];
      assert steps == done + SampleSteps;
    }

    /** `getPreviewContent()` on the current state. */
    function Preview(): (r: (string, string))
      reads this
      ensures !previewMode || selectedRecipient.None? ==> r == (subject, content)
      ensures previewMode && selectedRecipient.Some? ==>
                r == (Fill(subject, context, selectedRecipient), Fill(content, context, selectedRecipient))
    {
      PreviewOf(subject, content, previewMode, selectedRecipient, context)
    }

    /** `handleSend()` on the current state. */
    function HandleSend(): (r: Option<Message>)
      reads this
      ensures r.None? <==> Blank(subject) || Blank(content)
      ensures r.Some? ==> r.value == Message(messageType, subject, content, Ids(recipients))
    {
      SendResult(messageType, subject, content, recipients)
    }
  }
}
