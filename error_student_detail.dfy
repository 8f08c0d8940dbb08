/**
 * The "students who made this error" dialog (src/components/ErrorStudentDetailModal.tsx):
 * the per-error student lists, the badge of an error count and its colour, the in-place
 * sort the render applies to the looked-up list, the preview of examples and the counts.
 */
module ErrorStudentDetail {
  import opened Seqs
  import opened Sorting

  datatype ErrorStudent = ErrorStudent(
    id: string, name: string, errorCount: int, questions: seq<string>,
    errorExamples: seq<string>, feedback: seq<string>, group: string)

  datatype CommonError = CommonError(
    id: string, tag: string, count: int, percentage: real, severity: string, example: string,
    affectedStudents: seq<string>, questionIds: seq<int>)

  // ---------------------------------------------------------------------------
  // The mock student lists
  // ---------------------------------------------------------------------------

  const ErrorHs001 := ErrorStudent("hs001", "Nguyễn Văn An", 4, ["Câu 2", "Câu 5", "Câu 8", "Câu 10"],
    [
      "sin30° = √3/2 (sai, đúng là 1/2)",
      "cos45° = 1 (sai, đúng là √2/2)",
      "Nhầm cạnh kề với cạnh đối",
      "Quên quy tắc dấu trong góc phần tư thứ hai"],
    [
      "Em cần ôn lại bảng giá trị lượng giác cơ bản",
      "Luyện tập thêm bài tập nhận biết cạnh trong tam giác vuông",
      "Học thuộc quy tắc dấu của các hàm số lượng giác"],
    "Yếu")

  const ErrorHs002 := ErrorStudent("hs002", "Trần Thị Bình", 2, ["Câu 3", "Câu 7"],
    [
      "tan60° = √3/2 (sai, đúng là √3)",
      "Áp dụng sai công thức tính cạnh"],
    [
      "Cần ghi nhớ chính xác các giá trị đặc biệt",
      "Luyện tập thêm các dạng bài ứng dụng"],
    "TB")

  const ErrorHs003 := ErrorStudent("hs003", "Lê Văn Cường", 3, ["Câu 2", "Câu 4", "Câu 9"],
    [
      "Nhầm định nghĩa sin với cos",
      "Tính sai góc với arcsin",
      "Đơn vị góc không đúng (độ/radian)"],
    [
      "Ôn lại định nghĩa các tỉ số lượng giác",
      "Chú ý đơn vị góc khi tính toán",
      "Luyện tập thêm bài tập tìm góc"],
    "TB")

  const ErrorHs004 := ErrorStudent("hs004", "Phạm Thị Dung", 1, ["Câu 6"],
    [
      "Làm tròn kết quả không chính xác"],
    [
      "Chú ý quy tắc làm tròn số thập phân"],
    "Khá")

  const ErrorHs005 := ErrorStudent("hs005", "Hoàng Văn E", 5, ["Câu 1", "Câu 3", "Câu 5", "Câu 8", "Câu 11"],
    [
      "Không nhớ công thức cơ bản",
      "Tính toán sai các phép tính cơ bản",
      "Nhầm lẫn giữa các hàm số lượng giác",
      "Không hiểu đề bài",
      "Không biết cách vẽ hình minh họa"],
    [
      "Cần ôn lại toàn bộ kiến thức lượng giác cơ bản",
      "Luyện tập thêm các phép tính số học",
      "Học cách phân tích đề bài",
      "Rèn luyện kỹ năng vẽ hình minh họa"],
    "Yếu")

  const ErrorHs006 := ErrorStudent("hs006", "Vũ Thị Giang", 2, ["Câu 4", "Câu 12"],
    [
      "Áp dụng sai định lý cosin",
      "Bài toán thực tế thiết lập sai mối quan hệ"],
    [
      "Ôn lại định lý cosin và cách áp dụng",
      "Luyện tập thêm dạng bài toán thực tế"],
    "TB")

  const MockStudentErrors: map<string, seq<ErrorStudent>> := map[
    "error_1" := [ErrorHs001, ErrorHs002, ErrorHs003, ErrorHs004, ErrorHs005, ErrorHs006]]

  /** `mockStudentErrors[error.id] || []` on the lists as written: the error's students,
      none for an unknown error. */
  function StudentErrors(error: CommonError): (r: seq<ErrorStudent>)
    ensures error.id in MockStudentErrors ==> r == MockStudentErrors[error.id]
    ensures error.id !in MockStudentErrors ==> r == []
  {
    if error.id in MockStudentErrors then MockStudentErrors[error.id] else []
  }

  // ---------------------------------------------------------------------------
  // Badges
  // ---------------------------------------------------------------------------

  const SevereTag := "Nghiêm trọng"
  const PracticeTag := "Cần luyện tập"
  const ReminderTag := "Cần nhắc nhở"

  /** `getTagVariant(errorCount)`: severe above 3 errors, practice above 2. */
  function TagVariant(errorCount: int): (r: string)
    ensures r == SevereTag <==> errorCount > 3
    ensures r == PracticeTag <==> 2 < errorCount <= 3
    ensures r == ReminderTag <==> errorCount <= 2
  {
    TagsDistinct();
    if errorCount > 3 then SevereTag
    else if errorCount > 2 then PracticeTag
    else ReminderTag
  }

  lemma TagsDistinct()
    ensures SevereTag != PracticeTag && SevereTag != ReminderTag && PracticeTag != ReminderTag
  {
    assert SevereTag[0] != PracticeTag[0] && SevereTag[0] != ReminderTag[0];
    assert PracticeTag[4] != ReminderTag[4];
  }

  const FallbackColour := "border-muted text-muted-foreground"

  /** `getTagColor(tag)`. */
  function TagColour(tag: string): string {
    if tag == SevereTag then "border-danger text-danger"
    else if tag == PracticeTag then "border-warning text-warning"
    else if tag == ReminderTag then "border-primary text-primary"
    else FallbackColour
  }

  /** The three badge labels get three different colours, none of them the fallback; every
      other label gets the fallback; and every badge `getTagVariant` produces is coloured. */
  lemma TagColours(tag: string, errorCount: int)
    ensures TagColour(SevereTag) != TagColour(PracticeTag)
    ensures TagColour(SevereTag) != TagColour(ReminderTag)
    ensures TagColour(PracticeTag) != TagColour(ReminderTag)
    ensures tag == SevereTag || tag == PracticeTag || tag == ReminderTag <==> TagColour(tag) != FallbackColour
    ensures TagColour(TagVariant(errorCount)) != FallbackColour
  {
    TagsDistinct();
    ColoursDistinct();
  }

  lemma ColoursDistinct()
    ensures "border-danger text-danger" != "border-warning text-warning"
    ensures "border-danger text-danger" != "border-primary text-primary"
    ensures "border-warning text-warning" != "border-primary text-primary"
    ensures FallbackColour != "border-danger text-danger" && FallbackColour != "border-warning text-warning"
    ensures FallbackColour != "border-primary text-primary"
  {
    assert "border-danger text-danger"[7] == 'd';
    assert "border-warning text-warning"[7] == 'w';
    assert "border-primary text-primary"[7] == 'p';
    assert FallbackColour[7] == 'm';
  }

  // ---------------------------------------------------------------------------
  // The render's sort
  // ---------------------------------------------------------------------------

  function ErrorKey(s: ErrorStudent): real { s.errorCount as real }

  /** The lists as arrays the render can sort in place, as the module-level mock is. */
  method NewMockStore() returns (store: map<string, array<ErrorStudent>>)
    ensures store.Keys == MockStudentErrors.Keys
    ensures forall id :: id in store ==> fresh(store[id]) && store[id][..] == MockStudentErrors[id]
  {
    var a := new ErrorStudent[6];
    a[0], a[1], a[2] := ErrorHs001, ErrorHs002, ErrorHs003;
    a[3], a[4], a[5] := ErrorHs004, ErrorHs005, ErrorHs006;
    store := map["error_1" := a];
  }

  /** `studentErrors.sort((a, b) => b.errorCount - a.errorCount)` during the render: the
      listed array is sorted in place, most errors first, and the cards follow it. An
      unknown error sorts a fresh empty list. No other list changes. */
  method RenderStudents(store: map<string, array<ErrorStudent>>, error: CommonError)
    returns (cards: seq<ErrorStudent>)
    modifies store.Values
    ensures error.id in store ==>
              cards == SortDesc(old(store[error.id][..]), ErrorKey) && store[error.id][..] == cards
    ensures error.id !in store ==> cards == []
    ensures forall a :: a in store.Values && (error.id !in store || a != store[error.id]) ==> a[..] == old(a[..])
  {
    if error.id in store {
      var a := store[error.id];
      InsertionSort(a, ErrorKey);
      cards := a[..];
    } else {
      cards := [];
    }
  }

  /** The sorted cards are the same students, most errors first, ties in their old order;
      and since sorting again changes nothing, the mock mutated by one render shows the
      same cards at the next. */
  lemma RenderOrder(s: seq<ErrorStudent>)
    ensures multiset(SortDesc(s, ErrorKey)) == multiset(s)
    ensures forall i, j :: 0 <= i < j < |SortDesc(s, ErrorKey)| ==>
              SortDesc(s, ErrorKey)[i].errorCount >= SortDesc(s, ErrorKey)[j].errorCount
    ensures forall v: real :: Filter(SortDesc(s, ErrorKey), KeyIs(ErrorKey, v)) == Filter(s, KeyIs(ErrorKey, v))
    ensures SortDesc(SortDesc(s, ErrorKey), ErrorKey) == SortDesc(s, ErrorKey)
  {
    SortDescPermutes(s, ErrorKey);
    SortDescSorted(s, ErrorKey);
    var r := SortDesc(s, ErrorKey);
    forall i, j | 0 <= i < j < |r|
      ensures r[i].errorCount >= r[j].errorCount
    {
      assert ErrorKey(r[i]) >= ErrorKey(r[j]);
    }
    forall v: real
      ensures Filter(r, KeyIs(ErrorKey, v)) == Filter(s, KeyIs(ErrorKey, v))
    {
      SortDescStable(s, ErrorKey, v);
    }
    SortDescIdempotent(s, ErrorKey);
  }

  // ---------------------------------------------------------------------------
  // Displays
  // ---------------------------------------------------------------------------

  /** `errorExamples.slice(0, 2)` and the "+k" note. */
  function ExamplesPreview(student: ErrorStudent): (r: Capped<string>)
    ensures |r.shown| == (if |student.errorExamples| <= 2 then |student.errorExamples| else 2)
    ensures r.shown == student.errorExamples[..|r.shown|]
    ensures r.hidden > 0 <==> |student.errorExamples| > 2
    ensures r.hidden > 0 ==> r.hidden == |student.errorExamples| - 2
  {
    Cap(student.errorExamples, 2)
  }

  function IsSevere(s: ErrorStudent): bool { s.errorCount > 3 }
  function IsPractice(s: ErrorStudent): bool { s.errorCount > 2 && s.errorCount <= 3 }
  function IsReminder(s: ErrorStudent): bool { s.errorCount <= 2 }

  function HasTag(tag: string): ErrorStudent -> bool {
    (s: ErrorStudent) => TagVariant(s.errorCount) == tag
  }

  /** The three figures under the cards. */
  datatype TagSummary = TagSummary(severe: nat, practice: nat, reminder: nat)

  /** The counts add up to the number of students, each is the number of cards with that
      badge, and they do not depend on the order the list is in. */
  function SummaryOf(students: seq<ErrorStudent>): (r: TagSummary)
    ensures r.severe + r.practice + r.reminder == |students|
    ensures r.severe == |Filter(students, HasTag(SevereTag))|
    ensures r.practice == |Filter(students, HasTag(PracticeTag))|
    ensures r.reminder == |Filter(students, HasTag(ReminderTag))|
  {
    FilterPartition3(students, IsSevere, IsPractice, IsReminder);
    FilterExt(students, IsSevere, HasTag(SevereTag));
    FilterExt(students, IsPractice, HasTag(PracticeTag));
    FilterExt(students, IsReminder, HasTag(ReminderTag));
    TagSummary(|Filter(students, IsSevere)|, |Filter(students, IsPractice)|, |Filter(students, IsReminder)|)
  }

  /** Sorting before counting, as the render does, leaves the counts as they were. */
  lemma SummaryAfterSort(s: seq<ErrorStudent>)
    ensures SummaryOf(SortDesc(s, ErrorKey)) == SummaryOf(s)
  {
    SortDescPermutes(s, ErrorKey);
    FilterCountPermutation(SortDesc(s, ErrorKey), s, IsSevere);
    FilterCountPermutation(SortDesc(s, ErrorKey), s, IsPractice);
    FilterCountPermutation(SortDesc(s, ErrorKey), s, IsReminder);
  }
}
