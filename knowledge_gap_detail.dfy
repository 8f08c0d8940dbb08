/**
 * The question breakdown dialog of one topic (src/components/KnowledgeGapDetailModal.tsx):
 * the per-topic question details, the colour of a correct rate, and the three counts.
 */
module KnowledgeGapDetail {
  import opened Seqs
  import KnowledgeGapStudent

  datatype QuestionDetail = QuestionDetail(
    questionNumber: string, correctRate: real, studentsIncorrect: seq<string>,
    knowledgeExample: string)

  /** The question details of each mock topic. */
  const MockQuestionDetails: map<string, seq<QuestionDetail>> := map[
    "topic_1" := [
      QuestionDetail("Câu 1", 85.0, ["Nguyễn Văn An", "Hoàng Văn E"],
        "Tính \\sin 30°, \\cos 60°, \\tan 45° - Các giá trị lượng giác đặc biệt cơ bản"),
      QuestionDetail("Câu 3", 65.0, ["Nguyễn Văn An", "Lê Văn Cường", "Phạm Thị Dung"],
        "So sánh các giá trị lượng giác: \\sin 30° < \\cos 30° hay ngược lại?"),
      QuestionDetail("Câu 7", 45.0, ["Nguyễn Văn An", "Trần Thị Bình", "Hoàng Văn E", "Vũ Thị Giang"],
        "Ứng dụng định nghĩa trong bài toán thực tế - tính chiều cao cột cờ biết khoảng cách và góc nhìn")],
    "topic_2" := [
      QuestionDetail("Câu 2", 75.0, ["Lê Văn Cường", "Vũ Thị Giang", "Hoàng Văn E"],
        "Xác định cạnh đối, cạnh kề trong tam giác vuông ABC vuông tại C với góc \\alpha"),
      QuestionDetail("Câu 4", 40.0, ["Lê Văn Cường", "Phạm Thị Dung", "Hoàng Văn E", "Đỗ Văn H"],
        "Tỉ số lượng giác của góc nhọn: \\sin \\alpha = \\frac{\\text{đối}}{\\text{huyền}}, \\cos \\alpha = \\frac{\\text{kề}}{\\text{huyền}}"),
      QuestionDetail("Câu 5", 30.0, ["Lê Văn Cường", "Phạm Thị Dung", "Hoàng Văn E", "Vũ Thị Giang", "Đỗ Văn H"],
        "Áp dụng tỉ số lượng giác để tính độ dài cạnh trong tam giác vuông")],
    "topic_3" := [
      QuestionDetail("Câu 6", 45.0, ["Vũ Thị Giang", "Đỗ Văn H", "Mai Văn K"],
        "Tìm cạnh trong tam giác vuông: AB = \\frac{BC}{\\sin \\alpha} khi biết BC và góc \\alpha"),
      QuestionDetail("Câu 8", 25.0, ["Vũ Thị Giang", "Đỗ Văn H", "Mai Văn K", "Trương Văn M"],
        "Sử dụng sin, cos, tan để giải bài toán hình học: tính AC khi biết AB = 10cm và góc ABC = 60°")],
    "topic_4" := [
      QuestionDetail("Câu 9", 35.0, ["Mai Văn K", "Lý Thị L", "Trương Văn M"],
        "Tìm góc bằng hàm ngược: \\alpha = \\arcsin(0.5) = 30°, \\beta = \\arccos(0.5) = 60°"),
      QuestionDetail("Câu 10", 20.0, ["Mai Văn K", "Lý Thị L", "Trương Văn M", "Hoàng Văn E"],
        "Ứng dụng hàm lượng giác ngược: tìm góc nâng khi biết chiều cao và khoảng cách")],
    "topic_5" := [
      QuestionDetail("Câu 11", 20.0, ["Trương Văn M", "Mai Văn K", "Hoàng Văn E"],
        "Bài toán thực tế: Chiều cao tòa nhà = khoảng cách × \\tan(\\text{góc nâng})"),
      QuestionDetail("Câu 12", 10.0, ["Trương Văn M", "Vũ Thị Giang", "Lý Thị L"],
        "Ứng dụng tổng hợp: Tính khoảng cách từ điểm A đến điểm B không thể đo trực tiếp")]]

  /** `mockQuestionDetails[topic.id] || []`: the topic's questions, none for an unknown topic. */
  function QuestionDetails(topic: KnowledgeGapStudent.KnowledgeTopic): (r: seq<QuestionDetail>)
    ensures topic.id in MockQuestionDetails ==> r == MockQuestionDetails[topic.id]
    ensures topic.id !in MockQuestionDetails ==> r == []
  {
    if topic.id in MockQuestionDetails then MockQuestionDetails[topic.id] else []
  }

  /** The mock holds the five topics `topic_1` to `topic_5`, each with questions. */
  lemma MockTopics(id: string)
    ensures id in MockQuestionDetails <==>
              id == "topic_1" || id == "topic_2" || id == "topic_3" || id == "topic_4" || id == "topic_5"
    ensures id in MockQuestionDetails ==> |MockQuestionDetails[id]| > 0
  {
  }

  /** The three colours `getCorrectRateColor` tells apart. */
  datatype RateColour = Success | Warning | Danger

  function ColourName(c: RateColour): string {
    match c
    case Success => "success"
    case Warning => "warning"
    case Danger => "danger"
  }

  /** `getCorrectRateColor(rate)`: success from 70, warning from 50. */
  function CorrectRateColour(rate: real): (r: RateColour)
    ensures r == Success <==> rate >= 70.0
    ensures r == Warning <==> 50.0 <= rate < 70.0
    ensures r == Danger <==> rate < 50.0
  {
    if rate >= 70.0 then Success
    else if rate >= 50.0 then Warning
    else Danger
  }

  function IsHard(q: QuestionDetail): bool { q.correctRate < 50.0 }
  function IsMedium(q: QuestionDetail): bool { q.correctRate >= 50.0 && q.correctRate < 70.0 }
  function IsEasy(q: QuestionDetail): bool { q.correctRate >= 70.0 }

  function HasColour(c: RateColour): QuestionDetail -> bool {
    (q: QuestionDetail) => CorrectRateColour(q.correctRate) == c
  }

  /** The three summary figures: hard, medium and easy questions. */
  datatype QuestionSummary = QuestionSummary(hard: nat, medium: nat, easy: nat)

  /** The counts add up to the number of questions, and each is the number of questions
      shown in that colour. */
  function SummaryOf(questions: seq<QuestionDetail>): (r: QuestionSummary)
    ensures r.hard + r.medium + r.easy == |questions|
    ensures r.hard == |Filter(questions, HasColour(Danger))|
    ensures r.medium == |Filter(questions, HasColour(Warning))|
    ensures r.easy == |Filter(questions, HasColour(Success))|
  {
    FilterPartition3(questions, IsHard, IsMedium, IsEasy);
    FilterExt(questions, IsHard, HasColour(Danger));
    FilterExt(questions, IsMedium, HasColour(Warning));
    FilterExt(questions, IsEasy, HasColour(Success));
    QuestionSummary(|Filter(questions, IsHard)|, |Filter(questions, IsMedium)|, |Filter(questions, IsEasy)|)
  }

  /** An unknown topic shows no questions and an all-zero summary. */
  lemma UnknownTopicEmpty(topic: KnowledgeGapStudent.KnowledgeTopic)
    requires topic.id !in MockQuestionDetails
    ensures QuestionDetails(topic) == [] && SummaryOf(QuestionDetails(topic)) == QuestionSummary(0, 0, 0)
  {
  }
}
