/**
 * The payment invoice (Components/Invoice.jsx): the student, guardian, class
 * and balance it prints are looked up by id in the loaded lists, with a fixed
 * placeholder when nothing matches; the school's letterhead falls back to
 * "SchoolSoft" and empty strings; the amount rows default a missing amount to 0.
 */
module Invoice {
  import opened Js
  import Validation

  /**
   * The shape the four lookups share: nothing while the list is not loaded,
   * `project` of the first element matching on `key`, or the placeholder.
   */
  function Resolve(list: Option<seq<Value>>, key: string, target: Value,
                   project: Value -> Value, notFound: string): (r: Value)
    ensures list.None? ==> r == Undefined
    ensures list.Some? && NoMatch(list.value, key, target) ==> r == Str(notFound)
    ensures forall j: nat :: list.Some? && FirstMatch(list.value, key, target, j) ==>
      r == (if Truthy(list.value[j]) then project(list.value[j]) else Str(notFound))
  {
    match list
    case None => Undefined
    case Some(l) =>
      match FindBy(l, key, target)
      case None => Str(notFound)
      case Some(j) =>
        assert forall k :: FirstMatch(l, key, target, k) ==> k == j;
        if Truthy(l[j]) then project(l[j]) else Str(notFound)
  }

  /** `student.first_name + ' ' + student.last_name` */
  function FullName(student: Value): (r: Value)
    ensures var first := Render(Get(student, "first_name")); var last := Render(Get(student, "last_name"));
      r.Str? && |r.s| == |first| + 1 + |last| &&
      r.s[..|first|] == first && r.s[|first|] == ' ' && r.s[|first| + 1..] == last
  {
    Str(Render(Get(student, "first_name")) + " " + Render(Get(student, "last_name")))
  }

  function GuardianOf(student: Value): Value { Get(student, "guardianName") }

  /** `student.feeBalance ?? 0` */
  function BalanceOf(student: Value): Value { Coalesce(Get(student, "feeBalance"), Int(0)) }

  function NameOf(grade: Value): Value { Get(grade, "name") }

  /** `getStudentName(payments)` */
  function StudentName(students: Option<seq<Value>>, payment: Value): (r: Value)
    ensures students.None? ==> r == Undefined
    ensures students.Some? && NoMatch(students.value, "id", Get(payment, "studentId")) ==>
      r == Str("Student not found")
    ensures forall j: nat ::
      (students.Some? && FirstMatch(students.value, "id", Get(payment, "studentId"), j) && students.value[j].Obj?) ==>
        r == FullName(students.value[j])
  {
    Resolve(students, "id", Get(payment, "studentId"), FullName, "Student not found")
  }

  /** `getGuardianName(payments)` */
  function GuardianName(students: Option<seq<Value>>, payment: Value): (r: Value)
    ensures students.None? ==> r == Undefined
    ensures students.Some? && NoMatch(students.value, "id", Get(payment, "studentId")) ==>
      r == Str("Guardian not found")
    ensures forall j: nat ::
      (students.Some? && FirstMatch(students.value, "id", Get(payment, "studentId"), j) && students.value[j].Obj?) ==>
        r == Get(students.value[j], "guardianName")
  {
    Resolve(students, "id", Get(payment, "studentId"), GuardianOf, "Guardian not found")
  }

  /** `getStudentBalance(payments)`: a null or missing balance reads as 0. */
  function StudentBalance(students: Option<seq<Value>>, payment: Value): (r: Value)
    ensures students.None? ==> r == Undefined
    ensures students.Some? && NoMatch(students.value, "id", Get(payment, "studentId")) ==>
      r == Str("Balance not found")
    ensures forall j: nat ::
      (students.Some? && FirstMatch(students.value, "id", Get(payment, "studentId"), j) && students.value[j].Obj?) ==>
        r == (if Nullish(Get(students.value[j], "feeBalance")) then Int(0) else Get(students.value[j], "feeBalance"))
  {
    Resolve(students, "id", Get(payment, "studentId"), BalanceOf, "Balance not found")
  }

  /** `getClassName(payments)`: matched on the payment's `classId`. */
  function ClassName(classes: Option<seq<Value>>, payment: Value): (r: Value)
    ensures classes.None? ==> r == Undefined
    ensures classes.Some? && NoMatch(classes.value, "id", Get(payment, "classId")) ==>
      r == Str("Class not found")
    ensures forall j: nat ::
      (classes.Some? && FirstMatch(classes.value, "id", Get(payment, "classId"), j) && classes.value[j].Obj?) ==>
        r == Get(classes.value[j], "name")
  {
    Resolve(classes, "id", Get(payment, "classId"), NameOf, "Class not found")
  }

  /**
   * When the students' ids are distinct, the invoice of a payment made for
   * the student at index `j` names that student, their guardian and their
   * balance.
   */
  lemma InvoiceNamesPayingStudent(students: seq<Value>, payment: Value, j: nat)
    requires UniqueIds(students) && j < |students| && students[j].Obj?
    requires StrictEq(Get(students[j], "id"), Get(payment, "studentId"))
    ensures StudentName(Some(students), payment) == FullName(students[j])
    ensures GuardianName(Some(students), payment) == Get(students[j], "guardianName")
    ensures StudentBalance(Some(students), payment) == Coalesce(Get(students[j], "feeBalance"), Int(0))
  {
    UniqueMatchIsFirst(students, Get(payment, "studentId"), j);
  }

  /** Likewise for the class of the payment. */
  lemma InvoiceNamesPaymentClass(classes: seq<Value>, payment: Value, j: nat)
    requires UniqueIds(classes) && j < |classes| && classes[j].Obj?
    requires StrictEq(Get(classes[j], "id"), Get(payment, "classId"))
    ensures ClassName(Some(classes), payment) == Get(classes[j], "name")
  {
    UniqueMatchIsFirst(classes, Get(payment, "classId"), j);
  }

  // ---------------------------------------------------------------------------
  // Letterhead and amounts

  /** The school fields of the letterhead and their fallbacks. */
  const SchoolFallbacks: map<string, Value> :=
    map["name" := Str("SchoolSoft")]["address" := Str("")]["address2" := Str("")]
      ["phone" := Str("")]["phone2" := Str("")]["email" := Str("")]["town" := Str("")]
      ["bankName" := Str("")]["bankAcc" := Str("")]["mpesaInfo" := Str("")]

  /** `schoolData?.<field> ?? <fallback>` for each letterhead field. */
  function Letterhead(school: Value): (h: map<string, Value>)
    ensures h.Keys == SchoolFallbacks.Keys
    ensures forall k :: k in h ==> h[k] == Coalesce(Get(school, k), SchoolFallbacks[k])
  {
    Validation.DefaultsFrom(school, SchoolFallbacks)
  }

  /** Before the school record loads, the letterhead reads "SchoolSoft" and is otherwise blank. */
  lemma LetterheadWithoutSchool(school: Value)
    requires !school.Obj?
    ensures Letterhead(school)["name"] == Str("SchoolSoft")
    ensures forall k :: k in Letterhead(school) && k != "name" ==> Letterhead(school)[k] == Str("")
  {
  }

  /**
   * The number `KES.format(v)` prints: the formatter coerces its argument
   * with `Number`, so undefined prints as NaN and null as 0.
   */
  function Formatted(v: Value): (x: Num)
    ensures v.Undefined? ==> x.NaN?
    ensures v.Null? ==> x == Fin(0)
    ensures forall n: int :: v == Int(n) || v == Str(IntToString(n)) ==> x == Fin(n)
  {
    forall n: int ensures v == Str(IntToString(n)) ==> ToNumber(v) == Fin(n) {
      StringToNumberOfIntToString(n);
    }
    ToNumber(v)
  }

  /** The table of the invoice: its body rows and its footer row. */
  datatype AmountTable = AmountTable(body: seq<(string, Num)>, foot: (string, Num))

  /** The `autoTable` body and footer: `totalPaid = amount ?? 0`, the balance, and the raw amount as footer. */
  function Amounts(payment: Value, feeBalance: Value): (t: AmountTable)
    ensures |t.body| == 2 && t.body[0].0 == "Amount Paid" && t.body[1].0 == "Total Balance Due"
    ensures t.foot.0 == "Paid Total"
    ensures t.body[0].1 == (if Nullish(Get(payment, "amount")) then Fin(0) else ToNumber(Get(payment, "amount")))
    ensures t.body[1].1 == ToNumber(feeBalance)
  {
    var totalPaid := Coalesce(Get(payment, "amount"), Int(0));
    AmountTable([("Amount Paid", Formatted(totalPaid)), ("Total Balance Due", Formatted(feeBalance))],
                ("Paid Total", Formatted(Get(payment, "amount"))))
  }

  /**
   * The footer formats the raw amount, not `totalPaid`: the two agree
   * except when the payment has no amount at all, where "Amount Paid"
   * shows 0 and "Paid Total" NaN.
   */
  lemma FooterMatchesAmountPaid(payment: Value, feeBalance: Value)
    ensures var t := Amounts(payment, feeBalance);
      t.foot.1 == t.body[0].1 <==> Get(payment, "amount") != Undefined
  {
  }

  // ---------------------------------------------------------------------------
  // The component's state

  /** What `fetchData` resolves to: the student list, the class list and the school record. */
  datatype Lists = Lists(students: Option<seq<Value>>, classes: Option<seq<Value>>, school: Value)

  /** The fields `generatePDF` draws, before layout. */
  datatype Document = Document(
    letterhead: map<string, Value>,
    studentName: Value,
    className: Value,
    guardianName: Value,
    paymentMode: Value,
    amounts: AmountTable,
    servedBy: Value)

  /** The document for one payment, given the loaded lists and the signed-in staff name. */
  function DocumentFor(payment: Value, lists: Lists, staffName: Value): (d: Document)
    ensures d.letterhead == Letterhead(lists.school)
    ensures d.studentName == StudentName(lists.students, payment)
    ensures d.className == ClassName(lists.classes, payment)
    ensures d.guardianName == GuardianName(lists.students, payment)
    ensures d.amounts == Amounts(payment, StudentBalance(lists.students, payment))
    ensures d.paymentMode == Get(payment, "payment_mode") && d.servedBy == staffName
  {
    Document(Letterhead(lists.school), StudentName(lists.students, payment),
             ClassName(lists.classes, payment), GuardianName(lists.students, payment),
             Get(payment, "payment_mode"), Amounts(payment, StudentBalance(lists.students, payment)), staffName)
  }

  /** What `printPDF` goes on to do. */
  datatype PrintOutcome = NothingToPrint | PrintFrom(url: string)

  class InvoiceView {
    var showPreview: bool
    var pdfUrl: Option<string>
    /** The last document drawn (jsPDF keeps it behind `pdfUrl`). */
    var document: Option<Document>

    constructor ()
      ensures showPreview && pdfUrl == None && document == None
    {
      showPreview := true;
      pdfUrl := None;
      document := None;
    }

    /**
     * `generatePDF()`: without a payment nothing happens; otherwise the
     * document is drawn, and its object URL `blobUrl` becomes `pdfUrl` with
     * the preview shown.
     */
    method GeneratePdf(payment: Value, lists: Lists, staffName: Value, blobUrl: string)
      modifies this
      ensures !Truthy(payment) ==> showPreview == old(showPreview) && pdfUrl == old(pdfUrl) && document == old(document)
      ensures Truthy(payment) ==>
        showPreview && pdfUrl == Some(blobUrl) && document == Some(DocumentFor(payment, lists, staffName))
    {
      if Truthy(payment) {
        document := Some(DocumentFor(payment, lists, staffName));
        pdfUrl := Some(blobUrl);
        showPreview := true;
      }
    }

    /** `printPDF()`: returns at once when no document URL exists. */
    method PrintPdf() returns (out: PrintOutcome)
      ensures pdfUrl.None? || pdfUrl.value == "" <==> out == NothingToPrint
      ensures out.PrintFrom? ==> Some(out.url) == pdfUrl
    {
      if pdfUrl.None? || pdfUrl.value == "" {
        return NothingToPrint;
      }
      out := PrintFrom(pdfUrl.value);
    }
  }

  /** Once a payment has been drawn, printing opens that document; before, there is nothing to print. */
  method GenerateThenPrint(payment: Value, lists: Lists, staffName: Value, blobUrl: string)
    returns (before: PrintOutcome, after: PrintOutcome)
    requires blobUrl != ""
    ensures before == NothingToPrint
    ensures after == (if Truthy(payment) then PrintFrom(blobUrl) else NothingToPrint)
  {
    var view := new InvoiceView();
    before := view.PrintPdf();
    view.GeneratePdf(payment, lists, staffName, blobUrl);
    after := view.PrintPdf();
  }
}
