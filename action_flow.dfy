/**
 * The three-step "action flow" wizard of the action page (src/pages/ActionFlow.tsx): step
 * navigation, the student selection, the delivery-method checkboxes, and the fallbacks
 * the sidebar and the preview use.
 */
module ActionFlow {
  import opened Wrappers
  import opened Seqs

  /** A row of the student roster; `selected` marks the pre-selected ones. */
  datatype Student = Student(id: string, name: string, group: string, score: real, selected: bool)

  /** A radio option for the kind of recipient, with the head count it stands for. */
  datatype RecipientOption = RecipientOption(id: string, caption: string, count: int, kind: string)

  /** A worksheet or report template. */
  datatype FlowTemplate = FlowTemplate(
    id: string, name: string, kind: string, title: string, content: string,
    attachments: seq<string>, example: bool)

  // ---------------------------------------------------------------------------
  // The fixed data of the page
  // ---------------------------------------------------------------------------

  /** The wizard's steps; the step number runs over 1..StepCount. */
  const StepTitles: seq<string> := ["Chọn người nhận", "Nội dung & kiểm tra", "Xem trước"]
  const StepCount: int := |StepTitles|

  const RecipientOptions: seq<RecipientOption> := [
    RecipientOption("all_class", "Toàn lớp (20 HS)", 20, "class"),
    RecipientOption("weak_group", "Nhóm đề xuất (Cần hỗ trợ - 14 HS)", 14, "group"),
    RecipientOption("by_topic", "Chọn theo chủ đề", 0, "topic"),
    RecipientOption("manual", "Chọn thủ công", 0, "manual")]

  const Roster: seq<Student> := [
    Student("hs001", "Nguyễn Văn An", "Giỏi", 8.5, false),
    Student("hs002", "Trần Thị Bình", "Yếu", 4.5, true),
    Student("hs003", "Phạm Minh Cường", "Khá", 7.2, true),
    Student("hs004", "Lê Thị Dung", "TB", 6.1, false),
    Student("hs005", "Hoàng Văn E", "Yếu", 2.7, true),
    Student("hs006", "Vũ Thị Giao", "Giỏi", 9.2, false)]

  const DefaultTitle := "Worksheet 3 câu"
  const DefaultContent := "Làm trong 10 phút.\nMẫu: worksheet_3"

  const FlowTemplates: seq<FlowTemplate> := [
    FlowTemplate("worksheet_3", "Worksheet 3 câu", "student", DefaultTitle, DefaultContent,
                 ["worksheet_3", "answer_key_template", "worked_example"], true),
    FlowTemplate("parent_report", "Báo cáo cho phụ huynh", "parent",
                 "Tóm tắt 1 trang (với lỗi) về học tập huyền tập. Sử dụng tên HS thông minh",
                 "Hướng dẫn\nLàm trong 10 phút.", [], true)]

  function IsPreselected(s: Student): bool { s.selected }

  /** `students.filter(s => s.selected)`: the selection the page opens with. */
  function InitialSelection(): seq<Student> {
    Filter(Roster, IsPreselected)
  }

  /** The page opens with hs002, hs003 and hs005 selected, in roster order. */
  lemma InitialSelectionIs()
    ensures InitialSelection() == [Roster[1], Roster[2], Roster[4]]
    ensures Ids(InitialSelection()) == ["hs002", "hs003", "hs005"]
  {
    var f := IsPreselected;
    assert Roster[..0] == [];
    FilterPrefixStep(Roster, 0, f);
    FilterPrefixStep(Roster, 1, f);
    FilterPrefixStep(Roster, 2, f);
    FilterPrefixStep(Roster, 3, f);
    FilterPrefixStep(Roster, 4, f);
    FilterPrefixStep(Roster, 5, f);
    assert Roster[..6] == Roster;
  }

  function Ids(sel: seq<Student>): (r: seq<string>)
    ensures |r| == |sel| && forall i :: 0 <= i < |sel| ==> r[i] == sel[i].id
  {
    if |sel| == 0 then [] else Ids(sel[..|sel| - 1]) + [sel[|sel| - 1].id]
  }

  function Names(sel: seq<Student>): (r: seq<string>)
    ensures |r| == |sel| && forall i :: 0 <= i < |sel| ==> r[i] == sel[i].name
  {
    if |sel| == 0 then [] else Names(sel[..|sel| - 1]) + [sel[|sel| - 1].name]
  }

  // ---------------------------------------------------------------------------
  // Toggling a student
  // ---------------------------------------------------------------------------

  /** `selectedStudents.some(s => s.id === id)`. */
  predicate HasStudent(sel: seq<Student>, id: string) {
    exists i :: 0 <= i < |sel| && sel[i].id == id
  }

  function NotId(id: string): Student -> bool {
    (s: Student) => s.id != id
  }

  /** `handleStudentToggle`'s new selection: without the student when it was selected,
      with it appended otherwise. */
  function Toggled(sel: seq<Student>, student: Student): seq<Student> {
    if HasStudent(sel, student.id) then Filter(sel, NotId(student.id)) else sel + [student]
  }

  /** Toggling flips the membership of the toggled id. */
  lemma ToggleFlips(sel: seq<Student>, student: Student)
    ensures HasStudent(Toggled(sel, student), student.id) <==> !HasStudent(sel, student.id)
  {
    var id := student.id;
    var r := Toggled(sel, student);
    if HasStudent(sel, id) {
      forall i | 0 <= i < |r|
        ensures r[i].id != id
      {
        FilterMember(sel, NotId(id), r[i]);
      }
    } else {
      assert r[|sel|].id == id;
    }
  }

  /** Every other student keeps its membership and its place relative to the others. */
  lemma ToggleKeepsOthers(sel: seq<Student>, student: Student)
    ensures Filter(Toggled(sel, student), NotId(student.id)) == Filter(sel, NotId(student.id))
    ensures forall id :: id != student.id ==> (HasStudent(Toggled(sel, student), id) <==> HasStudent(sel, id))
  {
    var f := NotId(student.id);
    var r := Toggled(sel, student);
    if HasStudent(sel, student.id) {
      FilterIdempotent(sel, f);
    } else {
      assert (sel + [student])[..|sel|] == sel;
    }
    forall id | id != student.id
      ensures HasStudent(r, id) <==> HasStudent(sel, id)
    {
      if HasStudent(sel, student.id) {
        if HasStudent(sel, id) {
          var i :| 0 <= i < |sel| && sel[i].id == id;
          FilterMember(sel, f, sel[i]);
          var k :| 0 <= k < |r| && r[k] == sel[i];
        }
        if HasStudent(r, id) {
          var k :| 0 <= k < |r| && r[k].id == id;
          FilterMember(sel, f, r[k]);
          var i :| 0 <= i < |sel| && sel[i] == r[k];
        }
      } else {
        if HasStudent(r, id) {
          var k :| 0 <= k < |r| && r[k].id == id;
          assert k < |sel| && sel[k] == r[k];
        }
        if HasStudent(sel, id) {
          var i :| 0 <= i < |sel| && sel[i].id == id;
          assert r[i] == sel[i];
        }
      }
    }
  }

  /** Toggling a student who is not selected, and then toggling it again, restores the
      selection exactly. */
  lemma ToggleTwice(sel: seq<Student>, student: Student)
    requires !HasStudent(sel, student.id)
    ensures Toggled(Toggled(sel, student), student) == sel
  {
    var f := NotId(student.id);
    var r := sel + [student];
    assert r[|sel|].id == student.id;
    assert r[..|sel|] == sel;
    FilterKeepsAll(sel, f);
  }

  /** No two selected students share an id. */
  ghost predicate DistinctIds(sel: seq<Student>) {
    forall i, j :: 0 <= i < j < |sel| ==> sel[i].id != sel[j].id
  }

  /** Toggling never introduces a duplicate id. */
  lemma ToggleDistinct(sel: seq<Student>, student: Student)
    requires DistinctIds(sel)
    ensures DistinctIds(Toggled(sel, student))
  {
    if HasStudent(sel, student.id) {
      FilterDistinct(sel, NotId(student.id));
    }
  }

  lemma {:induction false} FilterDistinct(sel: seq<Student>, f: Student -> bool)
    requires DistinctIds(sel)
    ensures DistinctIds(Filter(sel, f))
    decreases |sel|
  {
    if |sel| > 0 {
      var init := sel[..|sel| - 1];
      var last := sel[|sel| - 1];
      FilterDistinct(init, f);
      var u := Filter(init, f);
      forall i | 0 <= i < |u|
        ensures u[i].id != last.id
      {
        FilterMember(init, f, u[i]);
        var k :| 0 <= k < |init| && init[k] == u[i];
        assert sel[k] == u[i];
      }
    }
  }

  // ---------------------------------------------------------------------------
  // Delivery methods
  // ---------------------------------------------------------------------------

  function NotMethod(m: string): string -> bool {
    (x: string) => x != m
  }

  /** A delivery checkbox's change: checking appends the method, unchecking removes every
      copy of it. */
  function Delivered(methods: seq<string>, m: string, checked: bool): seq<string> {
    if checked then methods + [m] else Filter(methods, NotMethod(m))
  }

  /** After a change the box shows what was chosen, and the other methods stay as they
      were, in the same order and with the same repetitions. */
  lemma DeliveredShows(methods: seq<string>, m: string, checked: bool)
    ensures m in Delivered(methods, m, checked) <==> checked
    ensures Filter(Delivered(methods, m, checked), NotMethod(m)) == Filter(methods, NotMethod(m))
  {
    var f := NotMethod(m);
    FilterMember(methods, f, m);
    if checked {
      assert (methods + [m])[..|methods|] == methods;
    } else {
      FilterIdempotent(methods, f);
    }
  }

  // ---------------------------------------------------------------------------
  // Displays
  // ---------------------------------------------------------------------------

  function HasOptionId(id: string): RecipientOption -> bool {
    (o: RecipientOption) => o.id == id
  }

  function HasTemplateId(id: string): FlowTemplate -> bool {
    (t: FlowTemplate) => t.id == id
  }

  /** The sidebar's head count: `selectedStudents.length || option?.count || 0`. */
  function RecipientCount(selected: nat, option: Option<RecipientOption>): (r: int)
    ensures selected != 0 ==> r == selected
    ensures selected == 0 && option.Some? ==> r == option.value.count
    ensures selected == 0 && option.None? ==> r == 0
  {
    if selected != 0 then selected
    else if option.Some? && option.value.count != 0 then option.value.count
    else 0
  }

  /** With nobody selected the sidebar falls back on the option's head count: 20 for the
      whole class, 14 for the suggested group, 0 for the other options and for an unknown
      option. */
  lemma RecipientCountFallback(optionId: string)
    ensures optionId == "all_class" ==> RecipientCount(0, Find(RecipientOptions, HasOptionId(optionId))) == 20
    ensures optionId == "weak_group" ==> RecipientCount(0, Find(RecipientOptions, HasOptionId(optionId))) == 14
    ensures optionId != "all_class" && optionId != "weak_group" ==>
              RecipientCount(0, Find(RecipientOptions, HasOptionId(optionId))) == 0
  {
    var f := HasOptionId(optionId);
    var r := Find(RecipientOptions, f);
    if r.Some? {
      var k :| 0 <= k < |RecipientOptions| && RecipientOptions[k] == r.value && f(RecipientOptions[k])
               && forall m :: 0 <= m < k ==> !f(RecipientOptions[m]);
      assert f(RecipientOptions[k]);
      if optionId == "all_class" {
        assert k == 0;
      } else if optionId == "weak_group" {
        assert RecipientOptions[0].id != optionId;
        assert k == 1;
      }
    }
  }

  /** `custom || template?.title || fallback` (the same shape serves the content). */
  function PreviewText(custom: string, fromTemplate: Option<string>, fallback: string): (r: string)
    ensures custom != "" ==> r == custom
    ensures custom == "" && fromTemplate.Some? && fromTemplate.value != "" ==> r == fromTemplate.value
    ensures custom == "" && (fromTemplate.None? || fromTemplate.value == "") ==> r == fallback
  {
    if custom != "" then custom
    else if fromTemplate.Some? && fromTemplate.value != "" then fromTemplate.value
    else fallback
  }

  function TemplateTitle(id: string): Option<string> {
    match Find(FlowTemplates, HasTemplateId(id))
    case Some(t) => Some(t.title)
    case None => None
  }

  function TemplateContent(id: string): Option<string> {
    match Find(FlowTemplates, HasTemplateId(id))
    case Some(t) => Some(t.content)
    case None => None
  }

  /** The preview never shows an empty title or body: every template's title and content
      and both defaults are non-empty. */
  lemma PreviewNeverEmpty(custom: string, templateId: string)
    ensures PreviewText(custom, TemplateTitle(templateId), DefaultTitle) != ""
    ensures PreviewText(custom, TemplateContent(templateId), DefaultContent) != ""
  {
  }

  /** The recipient summary: at most six names, in selection order, and a "+k" badge
      exactly when more than six are selected. */
  function Summary(sel: seq<Student>): (r: Capped<string>)
    ensures |r.shown| == (if |sel| <= 6 then |sel| else 6)
    ensures forall i :: 0 <= i < |r.shown| ==> r.shown[i] == sel[i].name
    ensures r.hidden > 0 <==> |sel| > 6
    ensures r.hidden > 0 ==> r.hidden == |sel| - 6
  {
    Cap(Names(sel), 6)
  }

  // ---------------------------------------------------------------------------
  // The wizard's state
  // ---------------------------------------------------------------------------

  class Flow {
    var currentStep: int
    var selectedRecipientType: string
    var selectedStudents: seq<Student>
    var selectedTemplate: string
    var customTitle: string
    var customContent: string
    var deliveryMethod: seq<string>
    var scheduleType: string

    /** The step number stays within the wizard's steps. */
    predicate Valid()
      reads this
    {
      1 <= currentStep <= StepCount
    }

    constructor ()
      ensures Valid() && currentStep == 1
      ensures selectedRecipientType == "weak_group" && selectedStudents == InitialSelection()
      ensures selectedTemplate == "worksheet_3" && customTitle == "" && customContent == ""
      ensures deliveryMethod == ["email", "zalo"] && scheduleType == "immediate"
    {
      currentStep := 1;
      selectedRecipientType := "weak_group";
      selectedStudents := InitialSelection();
      selectedTemplate := "worksheet_3";
      customTitle := "";
      customContent := "";
      deliveryMethod := ["email", "zalo"];
      scheduleType := "immediate";
    }

    /** Forward one step, except on the last. */
    method HandleNext()
      requires Valid()
      modifies this
      ensures Valid()
      ensures currentStep == if old(currentStep) < StepCount then old(currentStep) + 1 else old(currentStep)
      ensures selectedRecipientType == old(selectedRecipientType) && selectedStudents == old(selectedStudents)
      ensures selectedTemplate == old(selectedTemplate) && customTitle == old(customTitle)
      ensures customContent == old(customContent) && deliveryMethod == old(deliveryMethod)
      ensures scheduleType == old(scheduleType)
    {
      if currentStep < 3 {
        currentStep := currentStep + 1;
      }
    }

    /** Back one step, except on the first. */
    method HandlePrevious()
      requires Valid()
      modifies this
      ensures Valid()
      ensures currentStep == if old(currentStep) > 1 then old(currentStep) - 1 else old(currentStep)
      ensures selectedRecipientType == old(selectedRecipientType) && selectedStudents == old(selectedStudents)
      ensures selectedTemplate == old(selectedTemplate) && customTitle == old(customTitle)
      ensures customContent == old(customContent) && deliveryMethod == old(deliveryMethod)
      ensures scheduleType == old(scheduleType)
    {
      if currentStep > 1 {
        currentStep := currentStep - 1;
      }
    }

    /** A student's checkbox. */
    method HandleStudentToggle(student: Student)
      modifies this
      ensures selectedStudents == Toggled(old(selectedStudents), student)
      ensures currentStep == old(currentStep) && selectedRecipientType == old(selectedRecipientType)
      ensures selectedTemplate == old(selectedTemplate) && customTitle == old(customTitle)
      ensures customContent == old(customContent) && deliveryMethod == old(deliveryMethod)
      ensures scheduleType == old(scheduleType)
    {
      var isSelected := exists i :: 0 <= i < |selectedStudents| && selectedStudents[i].id == student.id;
      if isSelected {
        selectedStudents := Filter(selectedStudents, NotId(student.id));
      } else {
        selectedStudents := selectedStudents + [student];
      }
    }

    /** One of the three delivery checkboxes (`email`, `zalo`, `in-app`). */
    method SetDeliveryMethod(m: string, checked: bool)
      modifies this
      ensures deliveryMethod == Delivered(old(deliveryMethod), m, checked)
      ensures currentStep == old(currentStep) && selectedRecipientType == old(selectedRecipientType)
      ensures selectedStudents == old(selectedStudents) && selectedTemplate == old(selectedTemplate)
      ensures customTitle == old(customTitle) && customContent == old(customContent)
      ensures scheduleType == old(scheduleType)
    {
      if checked {
        deliveryMethod := deliveryMethod + [m];
      } else {
        deliveryMethod := Filter(deliveryMethod, NotMethod(m));
      }
    }

    /** Whether a delivery checkbox shows as checked. */
    function DeliveryChecked(m: string): bool
      reads this
    {
      m in deliveryMethod
    }

    /** The sidebar's head count on the current state. */
    function SidebarCount(): (r: int)
      reads this
      ensures |selectedStudents| > 0 ==> r == |selectedStudents|
      ensures |selectedStudents| == 0 ==> r == RecipientCount(0, Find(RecipientOptions, HasOptionId(selectedRecipientType)))
    {
      RecipientCount(|selectedStudents|, Find(RecipientOptions, HasOptionId(selectedRecipientType)))
    }

    /** The preview's title and body on the current state. */
    function PreviewTitle(): (r: string)
      reads this
      ensures r != ""
      ensures customTitle != "" ==> r == customTitle
    {
      PreviewNeverEmpty(customTitle, selectedTemplate);
      PreviewText(customTitle, TemplateTitle(selectedTemplate), DefaultTitle)
    }

    function PreviewContent(): (r: string)
      reads this
      ensures r != ""
      ensures customContent != "" ==> r == customContent
    {
      PreviewNeverEmpty(customContent, selectedTemplate);
      PreviewText(customContent, TemplateContent(selectedTemplate), DefaultContent)
    }
  }
}
