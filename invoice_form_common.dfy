/**
 * What the new-invoice and edit-invoice forms (src/components/NewInvoiceForm.tsx and
 * src/components/EditInvoiceForm.tsx) have in common: the form state, the item list edits, the
 * totals, the payment-terms select encoding and the error dictionary `validateForm` fills.
 */
module InvoiceFormCommon {
  import opened Wrappers
  import opened Strings
  import opened Seqs
  import opened Domain
  import PaymentTermsUtil

  // ---------------------------------------------------------------- form state

  /** An item as the form holds it: `Omit<InvoiceItem, "id" | "amount">`. */
  datatype LineItem = LineItem(description: string, quantity: real, unitPrice: real)

  /** The payment terms held by the form; `days` is `None` when `parseInt` gave NaN. */
  datatype FormTerms = FormTerms(days: Option<int>, description: string)

  function TermsOfOption(t: PaymentTerms): FormTerms { FormTerms(Some(t.days), t.description) }

  /** The `FormData` record; the two dates are the `YYYY-MM-DD` texts of the date inputs. */
  datatype FormData = FormData(
    clientId: string,
    status: Status,
    issuedDate: string,
    dueDate: string,
    paymentTerms: FormTerms,
    notes: string,
    items: seq<LineItem>,
    courseInfo: CourseInfo)

  const EmptyCourse: CourseInfo := CourseInfo("", "", "", "")

  // ---------------------------------------------------------------- totals

  /** `calculateItemAmount(quantity, unitPrice)`. */
  function LineAmount(item: LineItem): real { item.quantity * item.unitPrice }

  datatype Totals = Totals(subtotal: real, tax: real, total: real)

  /** `calculateTotals`: the sum of the item amounts, no tax. */
  function CalculateTotals(items: seq<LineItem>): (t: Totals)
    ensures t.tax == 0.0 && t.total == t.subtotal
  {
    var subtotal := Sum(items, LineAmount);
    Totals(subtotal, 0.0, subtotal + 0.0)
  }

  /** Items with non-negative quantities and prices give a non-negative total. */
  lemma {:induction false} TotalsNonNegative(items: seq<LineItem>)
    requires forall i :: 0 <= i < |items| ==> items[i].quantity >= 0.0 && items[i].unitPrice >= 0.0
    ensures CalculateTotals(items).total >= 0.0
    decreases |items|
  {
    if items != [] {
      TotalsNonNegative(items[..|items| - 1]);
      var last := items[|items| - 1];
      assert LineAmount(last) >= 0.0 by {
        assert last.quantity >= 0.0 && last.unitPrice >= 0.0;
      }
    }
  }

  // ---------------------------------------------------------------- item edits

  /** `items.filter((_, i) => i !== index)`. */
  function WithoutIndex(items: seq<LineItem>, index: int): seq<LineItem>
    decreases |items|
  {
    if items == [] then []
    else
      var rest := WithoutIndex(items[..|items| - 1], index);
      if |items| - 1 == index then rest else rest + [items[|items| - 1]]
  }

  /** Filtering out an index removes exactly that position, or nothing when it is out of range. */
  lemma {:induction false} WithoutIndexSplices(items: seq<LineItem>, index: int)
    ensures 0 <= index < |items| ==> WithoutIndex(items, index) == items[..index] + items[index + 1..]
    ensures !(0 <= index < |items|) ==> WithoutIndex(items, index) == items
    decreases |items|
  {
    if items != [] {
      var init := items[..|items| - 1];
      WithoutIndexSplices(init, index);
      if index == |items| - 1 {
        assert items[..index] == init;
      } else if 0 <= index < |items| - 1 {
        assert init[..index] == items[..index];
        assert init[index + 1..] + [items[|items| - 1]] == items[index + 1..];
      } else {
        assert init + [items[|items| - 1]] == items;
      }
    }
  }

  /** `removeItem`: nothing happens to a one-item list. */
  function RemoveItem(items: seq<LineItem>, index: int): seq<LineItem> {
    if |items| > 1 then WithoutIndex(items, index) else items
  }

  /**
   * The list never becomes empty; with more than one item exactly the item at the index goes and
   * the others keep their order.
   */
  lemma RemoveItemSpec(items: seq<LineItem>, index: int)
    ensures |items| >= 1 ==> |RemoveItem(items, index)| >= 1
    ensures |items| <= 1 ==> RemoveItem(items, index) == items
    ensures |items| > 1 && 0 <= index < |items| ==> RemoveItem(items, index) == items[..index] + items[index + 1..]
    ensures |items| > 1 && !(0 <= index < |items|) ==> RemoveItem(items, index) == items
  {
    WithoutIndexSplices(items, index);
  }

  /** Removing an item takes its amount off the total. */
  lemma RemoveItemTotal(items: seq<LineItem>, index: int)
    requires |items| > 1 && 0 <= index < |items|
    ensures CalculateTotals(RemoveItem(items, index)).total == CalculateTotals(items).total - LineAmount(items[index])
  {
    RemoveItemSpec(items, index);
    assert items == items[..index] + [items[index]] + items[index + 1..];
    SumAppend(items[..index] + [items[index]], items[index + 1..], LineAmount);
    SumAppend(items[..index], [items[index]], LineAmount);
    SumAppend(items[..index], items[index + 1..], LineAmount);
    assert Sum([items[index]], LineAmount) == LineAmount(items[index]) by {
      assert [items[index]][..0] == [];
    }
  }

  /** The field `updateItem` writes, with its new value. */
  datatype ItemEdit = SetDescription(text: string) | SetQuantity(quantity: real) | SetUnitPrice(price: real)

  function ApplyEdit(item: LineItem, edit: ItemEdit): LineItem {
    match edit
    case SetDescription(t) => item.(description := t)
    case SetQuantity(q) => item.(quantity := q)
    case SetUnitPrice(p) => item.(unitPrice := p)
  }

  /** `updateItem`: `{ ...item, [field]: value }` at the index. */
  function UpdateItem(items: seq<LineItem>, index: int, edit: ItemEdit): seq<LineItem> {
    seq(|items|, i requires 0 <= i < |items| => if i == index then ApplyEdit(items[i], edit) else items[i])
  }

  /** Only the chosen field of the chosen item changes. */
  lemma UpdateItemFrame(items: seq<LineItem>, index: int, edit: ItemEdit)
    ensures |UpdateItem(items, index, edit)| == |items|
    ensures forall i :: 0 <= i < |items| && i != index ==> UpdateItem(items, index, edit)[i] == items[i]
    ensures 0 <= index < |items| ==>
      var after := UpdateItem(items, index, edit)[index];
      && (edit.SetDescription? ==> after == items[index].(description := edit.text))
      && (edit.SetQuantity? ==> after == items[index].(quantity := edit.quantity))
      && (edit.SetUnitPrice? ==> after == items[index].(unitPrice := edit.price))
  {
  }

  /** A changed item changes the total by the difference of its amounts. */
  lemma UpdateItemTotal(items: seq<LineItem>, index: int, edit: ItemEdit)
    requires 0 <= index < |items|
    ensures CalculateTotals(UpdateItem(items, index, edit)).total
      == CalculateTotals(items).total - LineAmount(items[index]) + LineAmount(ApplyEdit(items[index], edit))
  {
    var after := UpdateItem(items, index, edit);
    assert items == items[..index] + [items[index]] + items[index + 1..];
    assert after == items[..index] + [ApplyEdit(items[index], edit)] + items[index + 1..];
    SumAppend(items[..index] + [items[index]], items[index + 1..], LineAmount);
    SumAppend(items[..index], [items[index]], LineAmount);
    SumAppend(items[..index] + [ApplyEdit(items[index], edit)], items[index + 1..], LineAmount);
    SumAppend(items[..index], [ApplyEdit(items[index], edit)], LineAmount);
    assert [items[index]][..0] == [] && [ApplyEdit(items[index], edit)][..0] == [];
  }

  /** `addItem`: one blank item with quantity 1 at the given price, after the others. */
  function AddItem(items: seq<LineItem>, price: real): (r: seq<LineItem>)
    ensures |r| == |items| + 1 && r[..|items|] == items
    ensures r[|items|] == LineItem("", 1.0, price)
    ensures CalculateTotals(r).total == CalculateTotals(items).total + price
  {
    assert (items + [LineItem("", 1.0, price)])[..|items|] == items;
    items + [LineItem("", 1.0, price)]
  }

  // ---------------------------------------------------------------- payment-terms select

  /** The text `${days}` gives for a days value; NaN prints as "NaN". */
  function DaysText(days: Option<int>): string {
    match days
    case Some(d) => IntToString(d)
    case None => "NaN"
  }

  /** The select's item value `${days}-${description}`. */
  function EncodeTerms(t: FormTerms): string { DaysText(t.days) + "-" + t.description }

  /** `const [days, ...descParts] = value.split("-")`, then `parseInt(days)` and `descParts.join("-")`. */
  function DecodeTerms(value: string): FormTerms {
    var parts := Split(value, '-');
    FormTerms(ParseInt(parts[0]), Join(parts[1..], "-"))
  }

  /**
   * Decoding the value of a non-negative (or NaN) days count gives the terms back, whatever
   * hyphens the description holds.
   */
  lemma DecodeEncodeTerms(t: FormTerms)
    requires t.days.None? || t.days.value >= 0
    ensures DecodeTerms(EncodeTerms(t)) == t
  {
    var head := DaysText(t.days);
    assert '-' !in head;
    assert EncodeTerms(t) == head + ['-'] + t.description;
    SplitAfterPrefix(head, '-', t.description);
    JoinSplit(t.description, '-');
    if t.days.Some? {
      ParseIntOfInt(t.days.value);
    } else {
      assert TrimStart(head) == head;
    }
  }

  /** Every option the select offers decodes to itself. */
  lemma DecodeEncodeOptions()
    ensures forall i :: 0 <= i < |PaymentTermsUtil.Options| ==>
      DecodeTerms(EncodeTerms(TermsOfOption(PaymentTermsUtil.Options[i]))) == TermsOfOption(PaymentTermsUtil.Options[i])
  {
    PaymentTermsUtil.OptionsAscending();
    forall i | 0 <= i < |PaymentTermsUtil.Options|
      ensures DecodeTerms(EncodeTerms(TermsOfOption(PaymentTermsUtil.Options[i]))) == TermsOfOption(PaymentTermsUtil.Options[i])
    {
      DecodeEncodeTerms(TermsOfOption(PaymentTermsUtil.Options[i]));
    }
  }

  /** A negative days count does not survive: its minus sign is taken for the separator. */
  lemma NegativeDaysLost()
    ensures DecodeTerms(EncodeTerms(FormTerms(Some(-5), "Net"))) == FormTerms(None, "5-Net")
  {
    NegativeDaysValue();
    NegativeDaysParts();
    assert ParseInt("") == None;
  }

  lemma NegativeDaysValue()
    ensures EncodeTerms(FormTerms(Some(-5), "Net")) == [] + ['-'] + ("5" + ['-'] + "Net")
  {
  }

  lemma NegativeDaysParts()
    ensures Split([] + ['-'] + ("5" + ['-'] + "Net"), '-') == ["", "5", "Net"]
  {
    SplitAfterPrefix([], '-', "5" + ['-'] + "Net");
    SplitAfterPrefix("5", '-', "Net");
    SplitWithoutSeparator("Net", '-');
  }

  // ---------------------------------------------------------------- validation

  /** `!s.trim()`: the text is empty or whitespace only (see `Strings.TrimEmptyIffBlank`). */
  predicate Blank(s: string) { IsBlank(s) }

  /** The item rule each form applies to a quantity. */
  datatype QuantityRule = AtLeastOneHundredth | Positive

  predicate QuantityOk(rule: QuantityRule, q: real) {
    match rule
    case AtLeastOneHundredth => !(q < 0.01)
    case Positive => !(q <= 0.0)
  }

  function QuantityMessage(rule: QuantityRule): string {
    match rule
    case AtLeastOneHundredth => "Quantity must be at least 0.01"
    case Positive => "Quantity must be greater than 0"
  }

  predicate ItemOk(rule: QuantityRule, item: LineItem) {
    !Blank(item.description) && QuantityOk(rule, item.quantity) && !(item.unitPrice < 0.0)
  }

  /** The three fields an item error names. */
  datatype ItemField = DescriptionField | QuantityField | UnitPriceField

  /** The keys of the error dictionary; `KeyName` gives the property name each form uses. */
  datatype ErrorKey =
    | ClientKey | IssuedDateKey | DueDateKey
    | CourseNameKey | CourseIdKey | CohortKey | TrainingDatesKey
    | ItemKey(index: nat, field: ItemField)

  function FieldName(f: ItemField): string {
    match f
    case DescriptionField => "description"
    case QuantityField => "quantity"
    case UnitPriceField => "unitPrice"
  }

  /** The property name of a key: `client`, …, or `` `item-${index}-${field}` ``. */
  function KeyName(k: ErrorKey): string {
    match k
    case ClientKey => "client"
    case IssuedDateKey => "issuedDate"
    case DueDateKey => "dueDate"
    case CourseNameKey => "courseName"
    case CourseIdKey => "courseId"
    case CohortKey => "cohort"
    case TrainingDatesKey => "trainingDates"
    case ItemKey(i, f) => "item-" + NatToString(i) + "-" + FieldName(f)
  }

  type Errors = map<ErrorKey, string>

  const DescriptionRequired: string := "Description is required"
  const PriceNegative: string := "Unit price cannot be negative"

  /** The errors the `forEach` adds for the item at `index`. */
  function ItemErrorsAt(e: Errors, index: nat, item: LineItem, rule: QuantityRule): Errors {
    var a := if Blank(item.description) then e[ItemKey(index, DescriptionField) := DescriptionRequired] else e;
    var b := if !QuantityOk(rule, item.quantity) then a[ItemKey(index, QuantityField) := QuantityMessage(rule)] else a;
    if item.unitPrice < 0.0 then b[ItemKey(index, UnitPriceField) := PriceNegative] else b
  }

  /** The dictionary after the `forEach` over `items`, starting from `e`. */
  function ItemErrors(e: Errors, items: seq<LineItem>, rule: QuantityRule): Errors
    decreases |items|
  {
    if items == [] then e
    else ItemErrorsAt(ItemErrors(e, items[..|items| - 1], rule), |items| - 1, items[|items| - 1], rule)
  }

  /** One item's checks add nothing exactly when the item passes. */
  lemma ItemErrorsAtEmpty(e: Errors, index: nat, item: LineItem, rule: QuantityRule)
    ensures ItemOk(rule, item) ==> ItemErrorsAt(e, index, item, rule) == e
    ensures !ItemOk(rule, item) ==> ItemErrorsAt(e, index, item, rule) != map[]
  {
    if !ItemOk(rule, item) {
      var r := ItemErrorsAt(e, index, item, rule);
      if Blank(item.description) {
        assert ItemKey(index, DescriptionField) in r;
      } else if !QuantityOk(rule, item.quantity) {
        assert ItemKey(index, QuantityField) in r;
      } else {
        assert ItemKey(index, UnitPriceField) in r;
      }
    }
  }

  /** One item's checks add the key of each field it fails, and nothing else. */
  lemma ItemErrorsAtKey(e: Errors, index: nat, item: LineItem, rule: QuantityRule, k: ErrorKey)
    ensures k in ItemErrorsAt(e, index, item, rule) <==>
      k in e || (k.ItemKey? && k.index == index && FieldFails(rule, item, k.field))
  {
  }

  /** The item loop keeps every entry it started with. */
  lemma {:induction false} ItemErrorsKeeps(e: Errors, items: seq<LineItem>, rule: QuantityRule, k: ErrorKey)
    requires k in e
    ensures k in ItemErrors(e, items, rule)
    decreases |items|
  {
    if items != [] {
      ItemErrorsKeeps(e, items[..|items| - 1], rule, k);
      ItemErrorsAtKey(ItemErrors(e, items[..|items| - 1], rule), |items| - 1, items[|items| - 1], rule, k);
    }
  }

  /** A key that is not an item key, or belongs to no item, is there only if it was there before. */
  lemma {:induction false} ItemErrorsOtherKeys(e: Errors, items: seq<LineItem>, rule: QuantityRule, k: ErrorKey)
    requires !k.ItemKey? || k.index >= |items|
    ensures k in ItemErrors(e, items, rule) <==> k in e
    decreases |items|
  {
    if items != [] {
      ItemErrorsOtherKeys(e, items[..|items| - 1], rule, k);
      ItemErrorsAtKey(ItemErrors(e, items[..|items| - 1], rule), |items| - 1, items[|items| - 1], rule, k);
    }
  }

  /** The key of a field of item `i` is added exactly when that item fails that check. */
  lemma {:induction false} ItemErrorsItemKey(e: Errors, items: seq<LineItem>, rule: QuantityRule, k: ErrorKey)
    requires k.ItemKey? && k.index < |items| && k !in e
    ensures k in ItemErrors(e, items, rule) <==> FieldFails(rule, items[k.index], k.field)
    decreases |items|
  {
    var init := items[..|items| - 1];
    ItemErrorsAtKey(ItemErrors(e, init, rule), |items| - 1, items[|items| - 1], rule, k);
    if k.index == |items| - 1 {
      ItemErrorsOtherKeys(e, init, rule, k);
    } else {
      ItemErrorsItemKey(e, init, rule, k);
      assert init[k.index] == items[k.index];
    }
  }

  /** The check of one field of an item fails. */
  predicate FieldFails(rule: QuantityRule, item: LineItem, f: ItemField) {
    match f
    case DescriptionField => Blank(item.description)
    case QuantityField => !QuantityOk(rule, item.quantity)
    case UnitPriceField => item.unitPrice < 0.0
  }

  /** No error is added and none was there exactly when every item passes. */
  lemma {:induction false} ItemErrorsEmptyIff(e: Errors, items: seq<LineItem>, rule: QuantityRule)
    ensures ItemErrors(e, items, rule) == map[] <==> e == map[] && forall i :: 0 <= i < |items| ==> ItemOk(rule, items[i])
    decreases |items|
  {
    if items != [] {
      var init := items[..|items| - 1];
      var last := items[|items| - 1];
      ItemErrorsEmptyIff(e, init, rule);
      ItemErrorsAtEmpty(ItemErrors(e, init, rule), |items| - 1, last, rule);
      if ItemErrors(e, items, rule) == map[] {
        assert ItemOk(rule, last) && ItemErrors(e, init, rule) == map[];
        forall i | 0 <= i < |items| ensures ItemOk(rule, items[i]) {
          if i < |init| {
            assert items[i] == init[i];
          }
        }
      }
      if e == map[] && forall i :: 0 <= i < |items| ==> ItemOk(rule, items[i]) {
        forall i | 0 <= i < |init| ensures ItemOk(rule, init[i]) {
          assert init[i] == items[i];
        }
      }
    }
  }

  /** The `forEach` of `validateForm`, adding each item's errors in turn. */
  method CollectItemErrors(e0: Errors, items: seq<LineItem>, rule: QuantityRule) returns (e: Errors)
    ensures e == ItemErrors(e0, items, rule)
  {
    e := e0;
    for index := 0 to |items|
      invariant e == ItemErrors(e0, items[..index], rule)
    {
      var item := items[index];
      assert items[..index + 1][..index] == items[..index];
      if Blank(item.description) {
        e := e[ItemKey(index, DescriptionField) := DescriptionRequired];
      }
      if !QuantityOk(rule, item.quantity) {
        e := e[ItemKey(index, QuantityField) := QuantityMessage(rule)];
      }
      if item.unitPrice < 0.0 {
        e := e[ItemKey(index, UnitPriceField) := PriceNegative];
      }
    }
    assert items[..|items|] == items;
  }

  /** The four course-field checks. */
  function CourseErrors(e: Errors, c: CourseInfo): Errors {
    var a := if Blank(c.courseName) then e[CourseNameKey := "Course name is required"] else e;
    var b := if Blank(c.courseId) then a[CourseIdKey := "Course ID is required"] else a;
    var d := if Blank(c.cohort) then b[CohortKey := "Cohort is required"] else b;
    if Blank(c.trainingDates) then d[TrainingDatesKey := "Training dates are required"] else d
  }

  predicate CourseComplete(c: CourseInfo) {
    !Blank(c.courseName) && !Blank(c.courseId) && !Blank(c.cohort) && !Blank(c.trainingDates)
  }

  /** The checks before the item loop; the course fields only when `checkCourse`. */
  function HeaderErrors(f: FormData, checkCourse: bool): Errors {
    var a: Errors := if f.clientId == "" then map[ClientKey := "Please select a client"] else map[];
    var b := if f.issuedDate == "" then a[IssuedDateKey := "Please select an issued date"] else a;
    var d := if f.dueDate == "" then b[DueDateKey := "Please select a due date"] else b;
    if checkCourse then CourseErrors(d, f.courseInfo) else d
  }

  /** The dictionary `validateForm` builds. */
  function FormErrors(f: FormData, checkCourse: bool, rule: QuantityRule): Errors {
    ItemErrors(HeaderErrors(f, checkCourse), f.items, rule)
  }

  predicate FormValid(f: FormData, checkCourse: bool, rule: QuantityRule) {
    && f.clientId != "" && f.issuedDate != "" && f.dueDate != ""
    && (checkCourse ==> CourseComplete(f.courseInfo))
    && forall i :: 0 <= i < |f.items| ==> ItemOk(rule, f.items[i])
  }

  /** The form passes exactly when every check passes. */
  lemma FormErrorsEmptyIff(f: FormData, checkCourse: bool, rule: QuantityRule)
    ensures FormErrors(f, checkCourse, rule) == map[] <==> FormValid(f, checkCourse, rule)
  {
    ItemErrorsEmptyIff(HeaderErrors(f, checkCourse), f.items, rule);
    HeaderErrorsEmptyIff(f, checkCourse);
  }

  lemma HeaderErrorsEmptyIff(f: FormData, checkCourse: bool)
    ensures HeaderErrors(f, checkCourse) == map[] <==>
      f.clientId != "" && f.issuedDate != "" && f.dueDate != "" && (checkCourse ==> CourseComplete(f.courseInfo))
  {
    var h := HeaderErrors(f, checkCourse);
    if f.clientId == "" { assert ClientKey in h; }
    else if f.issuedDate == "" { assert IssuedDateKey in h; }
    else if f.dueDate == "" { assert DueDateKey in h; }
    else if checkCourse && !CourseComplete(f.courseInfo) {
      var c := f.courseInfo;
      if Blank(c.courseName) { assert CourseNameKey in h; }
      else if Blank(c.courseId) { assert CourseIdKey in h; }
      else if Blank(c.cohort) { assert CohortKey in h; }
      else { assert TrainingDatesKey in h; }
    }
  }

  /** The header checks set no item key. */
  lemma HeaderErrorsNoItemKeys(f: FormData, checkCourse: bool, k: ErrorKey)
    requires k.ItemKey?
    ensures k !in HeaderErrors(f, checkCourse)
  {
  }

  lemma HeaderErrorsKeys(f: FormData, checkCourse: bool)
    ensures ClientKey in HeaderErrors(f, checkCourse) <==> f.clientId == ""
    ensures IssuedDateKey in HeaderErrors(f, checkCourse) <==> f.issuedDate == ""
    ensures DueDateKey in HeaderErrors(f, checkCourse) <==> f.dueDate == ""
    ensures CourseNameKey in HeaderErrors(f, checkCourse) <==> checkCourse && Blank(f.courseInfo.courseName)
  {
    var a: Errors := if f.clientId == "" then map[ClientKey := "Please select a client"] else map[];
    var b := if f.issuedDate == "" then a[IssuedDateKey := "Please select an issued date"] else a;
    var d := if f.dueDate == "" then b[DueDateKey := "Please select a due date"] else b;
    CourseErrorsKeys(d, f.courseInfo);
  }

  lemma CourseErrorsKeys(e: Errors, c: CourseInfo)
    ensures CourseNameKey in CourseErrors(e, c) <==> CourseNameKey in e || Blank(c.courseName)
    ensures forall k: ErrorKey :: !k.CourseNameKey? && !k.CourseIdKey? && !k.CohortKey? && !k.TrainingDatesKey? ==>
      (k in CourseErrors(e, c) <==> k in e)
  {
  }

  /** Each header message is there exactly when its field is empty (a course field only when checked). */
  lemma FormErrorsHeaderKeys(f: FormData, checkCourse: bool, rule: QuantityRule)
    ensures ClientKey in FormErrors(f, checkCourse, rule) <==> f.clientId == ""
    ensures IssuedDateKey in FormErrors(f, checkCourse, rule) <==> f.issuedDate == ""
    ensures DueDateKey in FormErrors(f, checkCourse, rule) <==> f.dueDate == ""
    ensures CourseNameKey in FormErrors(f, checkCourse, rule) <==> checkCourse && Blank(f.courseInfo.courseName)
  {
    var h := HeaderErrors(f, checkCourse);
    HeaderErrorsKeys(f, checkCourse);
    ItemErrorsOtherKeys(h, f.items, rule, ClientKey);
    ItemErrorsOtherKeys(h, f.items, rule, IssuedDateKey);
    ItemErrorsOtherKeys(h, f.items, rule, DueDateKey);
    ItemErrorsOtherKeys(h, f.items, rule, CourseNameKey);
  }

  /** The message for a field of item `i` is there exactly when that item fails that check. */
  lemma FormErrorsItemKey(f: FormData, checkCourse: bool, rule: QuantityRule, i: nat, fld: ItemField)
    requires i < |f.items|
    ensures ItemKey(i, fld) in FormErrors(f, checkCourse, rule) <==> FieldFails(rule, f.items[i], fld)
  {
    HeaderErrorsNoItemKeys(f, checkCourse, ItemKey(i, fld));
    ItemErrorsItemKey(HeaderErrors(f, checkCourse), f.items, rule, ItemKey(i, fld));
  }

  // ---------------------------------------------------------------- submission

  /** `` `item-${Date.now()}-${index}` ``. */
  function SubmittedId(stamp: int, index: nat): string {
    "item-" + IntToString(stamp) + "-" + NatToString(index)
  }

  /** The invoice items sent: each form item with its generated id and amount quantity × price. */
  function SubmittedItems(items: seq<LineItem>, stamp: int): (r: seq<InvoiceItem>)
    ensures |r| == |items|
    ensures forall i :: 0 <= i < |items| ==>
      && r[i].id == SubmittedId(stamp, i)
      && r[i].description == items[i].description
      && r[i].quantity == items[i].quantity
      && r[i].unitPrice == items[i].unitPrice
      && r[i].amount == items[i].quantity * items[i].unitPrice
  {
    seq(|items|, i requires 0 <= i < |items| => SubmittedItem(items[i], SubmittedId(stamp, i)))
  }

  function SubmittedItem(item: LineItem, id: string): InvoiceItem {
    InvoiceItem(id, item.description, item.quantity, item.unitPrice, LineAmount(item))
  }

  function ItemAmountOf(item: InvoiceItem): real { item.amount }

  /** The submitted amounts add up to the submitted subtotal. */
  lemma {:induction false} SubmittedAmountsSum(items: seq<LineItem>, stamp: int)
    ensures Sum(SubmittedItems(items, stamp), ItemAmountOf) == CalculateTotals(items).subtotal
    decreases |items|
  {
    if items != [] {
      var init := items[..|items| - 1];
      SubmittedAmountsSum(init, stamp);
      var s := SubmittedItems(items, stamp);
      assert s[..|s| - 1] == SubmittedItems(init, stamp);
    }
  }

  /** The body both forms send. */
  datatype Payload = Payload(
    number: string,
    clientId: string,
    status: Status,
    subtotal: real,
    tax: real,
    total: real,
    issuedDate: string,
    dueDate: string,
    paymentTerms: FormTerms,
    notes: Option<string>,
    items: seq<InvoiceItem>,
    courseInfo: Option<CourseInfo>)

  /** `notes || undefined`. */
  function NotesOrNone(notes: string): (r: Option<string>)
    ensures r.Some? <==> notes != ""
    ensures r.Some? ==> r.value == notes
  {
    if notes == "" then None else Some(notes)
  }

  /** The payload from the form, with the number and the course information each form chooses. */
  function BuildPayload(f: FormData, number: string, courseInfo: Option<CourseInfo>, stamp: int): (p: Payload)
    ensures p.subtotal == CalculateTotals(f.items).subtotal && p.tax == 0.0 && p.total == p.subtotal
    ensures Sum(p.items, ItemAmountOf) == p.total
    ensures p.clientId == f.clientId && p.status == f.status && p.number == number && p.courseInfo == courseInfo
  {
    var t := CalculateTotals(f.items);
    SubmittedAmountsSum(f.items, stamp);
    Payload(number, f.clientId, f.status, t.subtotal, t.tax, t.total, f.issuedDate, f.dueDate, f.paymentTerms,
            NotesOrNone(f.notes), SubmittedItems(f.items, stamp), courseInfo)
  }
}
