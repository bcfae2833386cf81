/**
 * The client service (src/services/clientService.ts) over the `clients` table: the row-to-client
 * mapping, the UPDATE statement built from the fields a caller defines, the delete guard, the
 * name search and the per-client invoice counts.
 */
module ClientService {
  import opened Wrappers
  import opened Strings
  import opened Seqs
  import opened Domain
  import opened Schema

  // ---------------------------------------------------------------- row to client

  /** A stored row as the application sees it. */
  function DbToClient(row: DbClient): (c: Client)
    ensures c.email != ""
  {
    Client(
      row.id,
      row.name,
      OrString(row.email, "client-" + row.id + "@example.com"),
      row.phone,
      row.address,
      row.city,
      row.state,
      row.zipCode,
      row.taxId,
      if row.defaultUnitPrice.Some? && row.defaultUnitPrice.value != 0.0 then row.defaultUnitPrice else None,
      row.requiresCourseInfo == Some(true),
      if row.billingStreet.Some? && row.billingStreet.value != "" then
        Some(BillingAddress(row.billingStreet.value, row.billingCity.GetOr(""),
                            row.billingState.GetOr(""), row.billingZip.GetOr("")))
      else None,
      Some(row.createdAt),
      Some(row.updatedAt))
  }

  /**
   * An empty or missing email reads as `client-<id>@example.com`; a billing address is present
   * exactly when the billing street is non-empty, and a NULL billing city, state or zip in it
   * reads as ""; the course flag is false unless stored true;
   * a zero or missing default price reads as absent.
   */
  lemma DbToClientFields(row: DbClient)
    ensures var c := DbToClient(row);
      && c.id == row.id && c.name == row.name
      && (row.email.None? || row.email.value == "" ==> c.email == "client-" + row.id + "@example.com")
      && (row.email.Some? && row.email.value != "" ==> c.email == row.email.value)
      && (c.billingAddress.Some? <==> row.billingStreet.Some? && row.billingStreet.value != "")
      && (c.billingAddress.Some? ==> c.billingAddress.value.address == row.billingStreet.value)
      && (c.billingAddress.Some? ==>
            && c.billingAddress.value.city == (if row.billingCity.Some? then row.billingCity.value else "")
            && c.billingAddress.value.state == (if row.billingState.Some? then row.billingState.value else "")
            && c.billingAddress.value.zipCode == (if row.billingZip.Some? then row.billingZip.value else ""))
      && (c.requiresCourseInfo <==> row.requiresCourseInfo == Some(true))
      && (c.defaultUnitPrice.None? <==> row.defaultUnitPrice.None? || row.defaultUnitPrice.value == 0.0)
      && (c.defaultUnitPrice.Some? ==> c.defaultUnitPrice == row.defaultUnitPrice)
  {
  }

  // ---------------------------------------------------------------- the UPDATE statement

  /** `UpdateClientData`: the id and every field the caller may define (`None` is `undefined`). */
  datatype ClientUpdate = ClientUpdate(
    id: string,
    name: Option<string>,
    email: Option<string>,
    phone: Option<string>,
    address: Option<string>,
    city: Option<string>,
    state: Option<string>,
    zipCode: Option<string>,
    taxId: Option<string>,
    defaultUnitPrice: Option<real>,
    requiresCourseInfo: Option<bool>,
    billingAddress: Option<BillingAddress>)

  datatype Column =
    | Name | Email | Phone | Address | City | State | ZipCode | TaxId
    | DefaultUnitPrice | RequiresCourseInfo
    | BillingStreet | BillingCity | BillingState | BillingZip

  function ColumnName(c: Column): string {
    match c
    case Name => "name"
    case Email => "email"
    case Phone => "phone"
    case Address => "address"
    case City => "city"
    case State => "state"
    case ZipCode => "zip_code"
    case TaxId => "tax_id"
    case DefaultUnitPrice => "default_unit_price"
    case RequiresCourseInfo => "requires_course_info"
    case BillingStreet => "billing_address_street"
    case BillingCity => "billing_address_city"
    case BillingState => "billing_address_state"
    case BillingZip => "billing_address_zip"
  }

  /** The columns in the order the builder considers them. */
  const Columns: seq<Column> := [
    Name, Email, Phone, Address, City, State, ZipCode, TaxId, DefaultUnitPrice, RequiresCourseInfo,
    BillingStreet, BillingCity, BillingState, BillingZip]

  /** A bound parameter. */
  datatype SqlValue = SText(s: string) | SNum(r: real) | SBool(b: bool)

  /** The value has the column's type (text, NUMERIC or boolean). */
  predicate Fits(c: Column, v: SqlValue) {
    match c
    case DefaultUnitPrice => v.SNum?
    case RequiresCourseInfo => v.SBool?
    case _ => v.SText?
  }

  function Text(o: Option<string>): Option<SqlValue> { if o.Some? then Some(SText(o.value)) else None }

  function Num(o: Option<real>): Option<SqlValue> { if o.Some? then Some(SNum(o.value)) else None }

  function Flag(o: Option<bool>): Option<SqlValue> { if o.Some? then Some(SBool(o.value)) else None }

  /**
   * The value the builder binds for a column, or `None` when the field is `undefined`. The four
   * billing columns come from the one billing address: all four are defined or none is.
   */
  function Value(d: ClientUpdate, c: Column): (v: Option<SqlValue>)
    ensures v.Some? ==> Fits(c, v.value)
  {
    var b := d.billingAddress;
    match c
    case Name => Text(d.name)
    case Email => Text(d.email)
    case Phone => Text(d.phone)
    case Address => Text(d.address)
    case City => Text(d.city)
    case State => Text(d.state)
    case ZipCode => Text(d.zipCode)
    case TaxId => Text(d.taxId)
    case DefaultUnitPrice => Num(d.defaultUnitPrice)
    case RequiresCourseInfo => Flag(d.requiresCourseInfo)
    case BillingStreet => if b.Some? then Some(SText(b.value.address)) else None
    case BillingCity => if b.Some? then Some(SText(b.value.city)) else None
    case BillingState => if b.Some? then Some(SText(b.value.state)) else None
    case BillingZip => if b.Some? then Some(SText(b.value.zipCode)) else None
  }

  datatype Assignment = Assignment(column: Column, value: SqlValue)

  ghost predicate AllFit(sets: seq<Assignment>) {
    forall k :: 0 <= k < |sets| ==> Fits(sets[k].column, sets[k].value)
  }

  /** The columns of `cols` whose field is defined, each with its value, in order. */
  function Defined(d: ClientUpdate, cols: seq<Column>): (r: seq<Assignment>)
    ensures |r| <= |cols|
    ensures AllFit(r)
  {
    if cols == [] then []
    else
      var c := cols[|cols| - 1];
      var v := Value(d, c);
      Defined(d, cols[..|cols| - 1]) + (if v.Some? then [Assignment(c, v.value)] else [])
  }

  /** The SET entries of the statement, before `updated_at = NOW()`. */
  function Assignments(d: ClientUpdate): seq<Assignment> { Defined(d, Columns) }

  /** `<column> = $<n>`. */
  function Clause(c: Column, n: nat): string { ColumnName(c) + " = $" + NatToString(n) }

  /**
   * `updateClient`'s builder: for each column whose field is defined, push a clause with the
   * next placeholder and push its value; then bind the id last. The ten single-column blocks of
   * the source and the four pushes of the billing block are the iterations of one loop here.
   */
  method BuildUpdate(d: ClientUpdate) returns (updateFields: seq<string>, values: seq<SqlValue>, paramCount: nat)
    ensures |updateFields| == |Assignments(d)|
    ensures forall k :: 0 <= k < |updateFields| ==>
              updateFields[k] == Clause(Assignments(d)[k].column, k + 1)
    ensures |values| == |Assignments(d)| + 1
    ensures forall k :: 0 <= k < |Assignments(d)| ==> values[k] == Assignments(d)[k].value
    ensures values[|values| - 1] == SText(d.id)
    ensures paramCount == |values|
  {
    updateFields, values, paramCount := PushDefined(d, Columns);
    values := values + [SText(d.id)];
  }

  /** The pushes for the columns `cols`, numbering placeholders from `$1`. */
  method PushDefined(d: ClientUpdate, cols: seq<Column>) returns (updateFields: seq<string>, values: seq<SqlValue>, paramCount: nat)
    ensures |updateFields| == |values| == |Defined(d, cols)|
    ensures paramCount == |values| + 1
    ensures forall k :: 0 <= k < |updateFields| ==> updateFields[k] == Clause(Defined(d, cols)[k].column, k + 1)
    ensures forall k :: 0 <= k < |values| ==> values[k] == Defined(d, cols)[k].value
  {
    updateFields, values, paramCount := [], [], 1;
    for i := 0 to |cols|
      invariant |updateFields| == |values| == |Defined(d, cols[..i])|
      invariant paramCount == |values| + 1
      invariant forall k :: 0 <= k < |updateFields| ==> updateFields[k] == Clause(Defined(d, cols[..i])[k].column, k + 1)
      invariant forall k :: 0 <= k < |values| ==> values[k] == Defined(d, cols[..i])[k].value
    {
      assert cols[..i + 1][..i] == cols[..i];
      var v := Value(d, cols[i]);
      if v.Some? {
        updateFields := updateFields + [Clause(cols[i], paramCount)];
        values := values + [v.value];
        paramCount := paramCount + 1;
      }
    }
    assert cols[..|cols|] == cols;
  }

  ghost predicate Distinct(cols: seq<Column>) {
    forall i, j :: 0 <= i < j < |cols| ==> cols[i] != cols[j]
  }

  /** Each column is considered exactly once. */
  lemma ColumnsDistinct()
    ensures Distinct(Columns)
    ensures forall c :: c in Columns
  {
    forall c ensures c in Columns {
      match c
      case Name => assert Columns[0] == c;
      case Email => assert Columns[1] == c;
      case Phone => assert Columns[2] == c;
      case Address => assert Columns[3] == c;
      case City => assert Columns[4] == c;
      case State => assert Columns[5] == c;
      case ZipCode => assert Columns[6] == c;
      case TaxId => assert Columns[7] == c;
      case DefaultUnitPrice => assert Columns[8] == c;
      case RequiresCourseInfo => assert Columns[9] == c;
      case BillingStreet => assert Columns[10] == c;
      case BillingCity => assert Columns[11] == c;
      case BillingState => assert Columns[12] == c;
      case BillingZip => assert Columns[13] == c;
    }
  }

  /** Of distinct columns, a column is among the SET entries exactly when its field is defined. */
  lemma {:induction false} DefinedColumns(d: ClientUpdate, cols: seq<Column>, c: Column)
    requires Distinct(cols)
    ensures (exists k :: 0 <= k < |Defined(d, cols)| && Defined(d, cols)[k].column == c) <==>
            c in cols && Value(d, c).Some?
  {
    if cols != [] {
      var p := cols[..|cols| - 1];
      var last := cols[|cols| - 1];
      var dp := Defined(d, p);
      var dc := Defined(d, cols);
      DefinedColumns(d, p, c);
      assert dc[..|dp|] == dp;
      if c in cols && Value(d, c).Some? {
        if c == last {
          assert dc[|dc| - 1].column == c;
        } else {
          var j :| 0 <= j < |cols| && cols[j] == c;
          assert p[j] == c;
          var m :| 0 <= m < |dp| && dp[m].column == c;
          assert dc[m] == dp[m];
        }
      }
      if exists k :: 0 <= k < |dc| && dc[k].column == c {
        var k :| 0 <= k < |dc| && dc[k].column == c;
        if k < |dp| {
          assert dc[k] == dp[k];
          assert dp[k].column == c;
          assert exists k' :: 0 <= k' < |Defined(d, p)| && Defined(d, p)[k'].column == c;
          assert c in p;
          var j :| 0 <= j < |p| && p[j] == c;
          assert cols[j] == c;
        } else {
          assert Value(d, last).Some? && dc == dp + [Assignment(last, Value(d, last).value)];
          assert last == c;
        }
      }
    }
  }

  /** The statement sets a column exactly when the caller defined the corresponding field. */
  lemma AssignmentsOnlyDefined(d: ClientUpdate, c: Column)
    ensures (exists k :: 0 <= k < |Assignments(d)| && Assignments(d)[k].column == c) <==> Value(d, c).Some?
  {
    ColumnsDistinct();
    assert c in Columns;
    DefinedColumns(d, Columns, c);
    var a := Assignments(d);
    if Value(d, c).Some? {
      var k :| 0 <= k < |Defined(d, Columns)| && Defined(d, Columns)[k].column == c;
      assert a[k].column == c;
    }
    if exists k :: 0 <= k < |a| && a[k].column == c {
      var k :| 0 <= k < |a| && a[k].column == c;
      assert Defined(d, Columns)[k].column == c;
    }
  }

  /** No defined field: no SET entry, and so no UPDATE is issued. */
  lemma NoFieldsNoAssignments(d: ClientUpdate)
    ensures Assignments(d) == [] <==>
      d.name.None? && d.email.None? && d.phone.None? && d.address.None? && d.city.None?
      && d.state.None? && d.zipCode.None? && d.taxId.None? && d.defaultUnitPrice.None?
      && d.requiresCourseInfo.None? && d.billingAddress.None?
  {
    if Assignments(d) == [] {
      AssignmentsOnlyDefined(d, Name);
      AssignmentsOnlyDefined(d, Email);
      AssignmentsOnlyDefined(d, Phone);
      AssignmentsOnlyDefined(d, Address);
      AssignmentsOnlyDefined(d, City);
      AssignmentsOnlyDefined(d, State);
      AssignmentsOnlyDefined(d, ZipCode);
      AssignmentsOnlyDefined(d, TaxId);
      AssignmentsOnlyDefined(d, DefaultUnitPrice);
      AssignmentsOnlyDefined(d, RequiresCourseInfo);
      AssignmentsOnlyDefined(d, BillingStreet);
    } else {
      AssignmentsOnlyDefined(d, Assignments(d)[0].column);
    }
  }

  /** A defined billing address contributes exactly its four columns, after the other fields. */
  lemma BillingFourColumns(d: ClientUpdate)
    requires d.billingAddress.Some?
    ensures var a := Assignments(d);
      && |a| >= 4
      && a[|a| - 4..] == [Assignment(BillingStreet, SText(d.billingAddress.value.address)),
                          Assignment(BillingCity, SText(d.billingAddress.value.city)),
                          Assignment(BillingState, SText(d.billingAddress.value.state)),
                          Assignment(BillingZip, SText(d.billingAddress.value.zipCode))]
  {
    var b := d.billingAddress.value;
    var c10, c11, c12, c13 := Columns[..10], Columns[..11], Columns[..12], Columns[..13];
    assert c11[..10] == c10 && c12[..11] == c11 && c13[..12] == c12 && Columns[..13] == c13;
    var base := Defined(d, c10);
    assert Defined(d, c11) == base + [Assignment(BillingStreet, SText(b.address))];
    assert Defined(d, c12) == base + [Assignment(BillingStreet, SText(b.address)), Assignment(BillingCity, SText(b.city))];
    assert Defined(d, c13) == base + [Assignment(BillingStreet, SText(b.address)), Assignment(BillingCity, SText(b.city)),
                                      Assignment(BillingState, SText(b.state))];
    assert Assignments(d) == base + [Assignment(BillingStreet, SText(b.address)), Assignment(BillingCity, SText(b.city)),
                                      Assignment(BillingState, SText(b.state)), Assignment(BillingZip, SText(b.zipCode))];
  }

  // ---------------------------------------------------------------- applying the statement

  /** The value a row holds in a column (`None` is NULL). */
  function Cell(row: DbClient, c: Column): Option<SqlValue> {
    match c
    case Name => Some(SText(row.name))
    case Email => Text(row.email)
    case Phone => Text(row.phone)
    case Address => Some(SText(row.address))
    case City => Some(SText(row.city))
    case State => Some(SText(row.state))
    case ZipCode => Some(SText(row.zipCode))
    case TaxId => Text(row.taxId)
    case DefaultUnitPrice => Num(row.defaultUnitPrice)
    case RequiresCourseInfo => Flag(row.requiresCourseInfo)
    case BillingStreet => Text(row.billingStreet)
    case BillingCity => Text(row.billingCity)
    case BillingState => Text(row.billingState)
    case BillingZip => Text(row.billingZip)
  }

  /** One SET entry: the column now holds the value and every other column is kept. */
  function SetColumn(row: DbClient, a: Assignment): (r: DbClient)
    requires Fits(a.column, a.value)
    ensures Cell(r, a.column) == Some(a.value)
    ensures forall c :: c != a.column ==> Cell(r, c) == Cell(row, c)
    ensures r.id == row.id && r.userId == row.userId && r.createdAt == row.createdAt && r.updatedAt == row.updatedAt
  {
    var v := a.value;
    match a.column
    case Name => row.(name := v.s)
    case Email => row.(email := Some(v.s))
    case Phone => row.(phone := Some(v.s))
    case Address => row.(address := v.s)
    case City => row.(city := v.s)
    case State => row.(state := v.s)
    case ZipCode => row.(zipCode := v.s)
    case TaxId => row.(taxId := Some(v.s))
    case DefaultUnitPrice => row.(defaultUnitPrice := Some(v.r))
    case RequiresCourseInfo => row.(requiresCourseInfo := Some(v.b))
    case BillingStreet => row.(billingStreet := Some(v.s))
    case BillingCity => row.(billingCity := Some(v.s))
    case BillingState => row.(billingState := Some(v.s))
    case BillingZip => row.(billingZip := Some(v.s))
  }

  /** The SET entries applied left to right. */
  function ApplyAll(row: DbClient, sets: seq<Assignment>): (r: DbClient)
    requires AllFit(sets)
    ensures r.id == row.id && r.userId == row.userId && r.createdAt == row.createdAt && r.updatedAt == row.updatedAt
  {
    if sets == [] then row else SetColumn(ApplyAll(row, sets[..|sets| - 1]), sets[|sets| - 1])
  }

  /** After the entries for distinct columns, a column holds its value if defined, else its old one. */
  lemma {:induction false} ApplyDefinedCell(row: DbClient, d: ClientUpdate, cols: seq<Column>, c: Column)
    requires Distinct(cols)
    ensures Cell(ApplyAll(row, Defined(d, cols)), c) ==
            if c in cols && Value(d, c).Some? then Value(d, c) else Cell(row, c)
  {
    if cols != [] {
      var p := cols[..|cols| - 1];
      var last := cols[|cols| - 1];
      var dp := Defined(d, p);
      var dc := Defined(d, cols);
      assert Distinct(p);
      ApplyDefinedCell(row, d, p, c);
      if Value(d, last).Some? {
        assert dc[..|dc| - 1] == dp;
      } else {
        assert dc == dp;
      }
      if c == last {
        assert c !in p;
      }
    }
  }

  /** The row the statement should produce: each defined field replaced, the rest kept. */
  function UpdatedRow(row: DbClient, d: ClientUpdate): DbClient {
    var b := d.billingAddress;
    row.(
      name := d.name.GetOr(row.name),
      email := if d.email.Some? then d.email else row.email,
      phone := if d.phone.Some? then d.phone else row.phone,
      address := d.address.GetOr(row.address),
      city := d.city.GetOr(row.city),
      state := d.state.GetOr(row.state),
      zipCode := d.zipCode.GetOr(row.zipCode),
      taxId := if d.taxId.Some? then d.taxId else row.taxId,
      defaultUnitPrice := if d.defaultUnitPrice.Some? then d.defaultUnitPrice else row.defaultUnitPrice,
      requiresCourseInfo := if d.requiresCourseInfo.Some? then d.requiresCourseInfo else row.requiresCourseInfo,
      billingStreet := if b.Some? then Some(b.value.address) else row.billingStreet,
      billingCity := if b.Some? then Some(b.value.city) else row.billingCity,
      billingState := if b.Some? then Some(b.value.state) else row.billingState,
      billingZip := if b.Some? then Some(b.value.zipCode) else row.billingZip)
  }

  lemma UpdatedRowCell(row: DbClient, d: ClientUpdate, c: Column)
    ensures Cell(UpdatedRow(row, d), c) == if Value(d, c).Some? then Value(d, c) else Cell(row, c)
  {
  }

  /** Rows agreeing on every column and on the untouched fields are equal. */
  lemma CellsDetermineRow(a: DbClient, b: DbClient)
    requires forall c :: Cell(a, c) == Cell(b, c)
    requires a.id == b.id && a.userId == b.userId && a.createdAt == b.createdAt && a.updatedAt == b.updatedAt
    ensures a == b
  {
    assert Cell(a, Name) == Cell(b, Name);
    assert Cell(a, Email) == Cell(b, Email);
    assert Cell(a, Phone) == Cell(b, Phone);
    assert Cell(a, Address) == Cell(b, Address);
    assert Cell(a, City) == Cell(b, City);
    assert Cell(a, State) == Cell(b, State);
    assert Cell(a, ZipCode) == Cell(b, ZipCode);
    assert Cell(a, TaxId) == Cell(b, TaxId);
    assert Cell(a, DefaultUnitPrice) == Cell(b, DefaultUnitPrice);
    assert Cell(a, RequiresCourseInfo) == Cell(b, RequiresCourseInfo);
    assert Cell(a, BillingStreet) == Cell(b, BillingStreet);
    assert Cell(a, BillingCity) == Cell(b, BillingCity);
    assert Cell(a, BillingState) == Cell(b, BillingState);
    assert Cell(a, BillingZip) == Cell(b, BillingZip);
  }

  /** The statement's SET entries, applied to a row, replace exactly the defined fields. */
  lemma ApplyAssignments(row: DbClient, d: ClientUpdate)
    ensures ApplyAll(row, Assignments(d)) == UpdatedRow(row, d)
  {
    ColumnsDistinct();
    var r := ApplyAll(row, Assignments(d));
    forall c ensures Cell(r, c) == Cell(UpdatedRow(row, d), c) {
      ApplyDefinedCell(row, d, Columns, c);
      UpdatedRowCell(row, d, c);
    }
    CellsDetermineRow(r, UpdatedRow(row, d));
  }

  // ---------------------------------------------------------------- the clients table

  /** The first row with the id (`SELECT * FROM clients WHERE id = $1`, the first row). */
  function FindRow(rows: seq<DbClient>, id: string): (r: Option<DbClient>)
    ensures r.Some? ==> r.value in rows && r.value.id == id
    ensures r.None? <==> forall i :: 0 <= i < |rows| ==> rows[i].id != id
  {
    if rows == [] then None
    else if rows[0].id == id then Some(rows[0])
    else FindRow(rows[1..], id)
  }

  function GetClientById(rows: seq<DbClient>, id: string): (r: Option<Client>)
    ensures r.Some? <==> exists i :: 0 <= i < |rows| && rows[i].id == id
  {
    match FindRow(rows, id)
    case None => None
    case Some(row) => Some(DbToClient(row))
  }

  /** The UPDATE applied to one row: the SET entries, then `updated_at = NOW()`, where `id` matches. */
  function UpdateIfId(d: ClientUpdate, now: string): DbClient -> DbClient {
    (row: DbClient) =>
      if row.id == d.id then ApplyAll(row, Assignments(d)).(updatedAt := now) else row
  }

  /**
   * `updateClient`: with no defined field the table is unchanged and the answer is the client by
   * id; otherwise every row with the id is updated and the first updated row is returned, or
   * `None` when no row has the id. No user filter is applied.
   */
  function UpdateClient(rows: seq<DbClient>, d: ClientUpdate, now: string): (seq<DbClient>, Option<Client>) {
    if Assignments(d) == [] then (rows, GetClientById(rows, d.id))
    else
      var after := Map(rows, UpdateIfId(d, now));
      (after, GetClientById(after, d.id))
  }

  /**
   * An update with at least one SET entry touches only the rows with the id; each of those has
   * its defined fields replaced, its other columns kept and its update time set.
   */
  lemma UpdateClientRows(rows: seq<DbClient>, d: ClientUpdate, now: string)
    requires Assignments(d) != []
    ensures |UpdateClient(rows, d, now).0| == |rows|
    ensures forall i :: 0 <= i < |rows| && rows[i].id != d.id ==> UpdateClient(rows, d, now).0[i] == rows[i]
    ensures forall i :: 0 <= i < |rows| && rows[i].id == d.id ==>
              UpdateClient(rows, d, now).0[i] == UpdatedRow(rows[i], d).(updatedAt := now)
  {
    forall i | 0 <= i < |rows| && rows[i].id == d.id
      ensures UpdateClient(rows, d, now).0[i] == UpdatedRow(rows[i], d).(updatedAt := now)
    {
      ApplyAssignments(rows[i], d);
    }
  }

  lemma UpdateIfIdKeepsIds(d: ClientUpdate, now: string)
    ensures forall r :: UpdateIfId(d, now)(r).id == r.id
  {
    forall r ensures UpdateIfId(d, now)(r).id == r.id {
      if r.id == d.id {
        var a := Assignments(d);
        assert ApplyAll(r, a).id == r.id;
      }
    }
  }

  /** Finding by id after a change that keeps ids finds the changed first match. */
  lemma {:induction false} FindRowMap(rows: seq<DbClient>, f: DbClient -> DbClient, id: string)
    requires forall r :: f(r).id == r.id
    ensures FindRow(Map(rows, f), id).Some? <==> FindRow(rows, id).Some?
    ensures FindRow(rows, id).Some? ==> FindRow(Map(rows, f), id).value == f(FindRow(rows, id).value)
  {
    if rows != [] {
      assert Map(rows, f)[1..] == Map(rows[1..], f);
      FindRowMap(rows[1..], f, id);
    }
  }

  /** The answer is `None` exactly when no row has the id. */
  lemma UpdateClientFound(rows: seq<DbClient>, d: ClientUpdate, now: string)
    ensures UpdateClient(rows, d, now).1.Some? <==> FindRow(rows, d.id).Some?
  {
    if Assignments(d) != [] {
      UpdateIfIdKeepsIds(d, now);
      FindRowMap(rows, UpdateIfId(d, now), d.id);
    }
  }

  /** Reading by id after a change that keeps ids reads the changed first match. */
  lemma GetClientByIdMap(rows: seq<DbClient>, f: DbClient -> DbClient, id: string)
    requires forall r :: f(r).id == r.id
    requires FindRow(rows, id).Some?
    ensures GetClientById(Map(rows, f), id) == Some(DbToClient(f(FindRow(rows, id).value)))
  {
    FindRowMap(rows, f, id);
  }

  /** After an UPDATE the answer is the first row with the id, as updated. */
  lemma UpdateClientResult(rows: seq<DbClient>, d: ClientUpdate, now: string)
    requires Assignments(d) != [] && FindRow(rows, d.id).Some?
    ensures UpdateClient(rows, d, now).1 == Some(DbToClient(UpdatedRow(FindRow(rows, d.id).value, d).(updatedAt := now)))
  {
    UpdateClientReads(rows, d, now);
    UpdateIfIdOnMatch(d, now, FindRow(rows, d.id).value);
    UpdateClientAfter(rows, d, now);
  }

  lemma UpdateClientReads(rows: seq<DbClient>, d: ClientUpdate, now: string)
    requires FindRow(rows, d.id).Some?
    ensures GetClientById(Map(rows, UpdateIfId(d, now)), d.id) == Some(DbToClient(UpdateIfId(d, now)(FindRow(rows, d.id).value)))
  {
    UpdateIfIdKeepsIds(d, now);
    GetClientByIdMap(rows, UpdateIfId(d, now), d.id);
  }

  lemma UpdateClientAfter(rows: seq<DbClient>, d: ClientUpdate, now: string)
    requires Assignments(d) != []
    ensures UpdateClient(rows, d, now).1 == GetClientById(Map(rows, UpdateIfId(d, now)), d.id)
  {
  }

  lemma UpdateIfIdOnMatch(d: ClientUpdate, now: string, row: DbClient)
    requires row.id == d.id
    ensures UpdateIfId(d, now)(row) == UpdatedRow(row, d).(updatedAt := now)
  {
    ApplyAssignments(row, d);
  }

  /** Without a defined field nothing is written and the stored client is returned. */
  lemma UpdateNothingReadsBack(rows: seq<DbClient>, d: ClientUpdate, now: string)
    requires d.name.None? && d.email.None? && d.phone.None? && d.address.None? && d.city.None?
    requires d.state.None? && d.zipCode.None? && d.taxId.None? && d.defaultUnitPrice.None?
    requires d.requiresCourseInfo.None? && d.billingAddress.None?
    ensures UpdateClient(rows, d, now) == (rows, GetClientById(rows, d.id))
  {
    NoFieldsNoAssignments(d);
  }

  // ---------------------------------------------------------------- delete

  const HasInvoicesError: string := "Cannot delete client with existing invoices"

  function InvoiceOf(id: string): DbInvoice -> bool { (inv: DbInvoice) => inv.clientId == id }

  function OtherThan(id: string): DbClient -> bool { (row: DbClient) => row.id != id }

  /** `deleteClient`: refuse while any invoice names the client; otherwise delete its rows. */
  function DeleteClient(rows: seq<DbClient>, invoices: seq<DbInvoice>, id: string): Result<seq<DbClient>, string> {
    if Count(invoices, InvoiceOf(id)) > 0 then Err(HasInvoicesError)
    else Ok(Filter(rows, OtherThan(id)))
  }

  /**
   * The delete is refused exactly when some invoice refers to the client, and then nothing is
   * deleted; otherwise the rows with the id are gone and every other row stays, in order.
   */
  lemma DeleteClientGuard(rows: seq<DbClient>, invoices: seq<DbInvoice>, id: string)
    ensures DeleteClient(rows, invoices, id).Err? <==> exists i :: 0 <= i < |invoices| && invoices[i].clientId == id
    ensures DeleteClient(rows, invoices, id).Err? ==> DeleteClient(rows, invoices, id).error == HasInvoicesError
    ensures DeleteClient(rows, invoices, id).Ok? ==>
      var left := DeleteClient(rows, invoices, id).value;
      && (forall r :: r in left <==> r in rows && r.id != id)
      && IsSubsequence(left, rows)
  {
    FilterMembers(invoices, InvoiceOf(id));
    FilterMembers(rows, OtherThan(id));
    FilterIsSubsequence(rows, OtherThan(id));
    if forall i :: 0 <= i < |invoices| ==> invoices[i].clientId != id {
      FilterNone(invoices, InvoiceOf(id));
    } else {
      var i :| 0 <= i < |invoices| && invoices[i].clientId == id;
      assert invoices[i] in Filter(invoices, InvoiceOf(id));
    }
  }

  // ---------------------------------------------------------------- search and counts

  function NameLike(term: string): DbClient -> bool { (row: DbClient) => ContainsIgnoreCase(row.name, term) }

  function ByClientName(): (DbClient, DbClient) -> bool { (a: DbClient, b: DbClient) => LexLess(a.name, b.name) }

  lemma ByClientNameIsStrict()
    ensures StrictOrder(ByClientName())
  {
    forall x ensures !ByClientName()(x, x) { LexLessIrreflexive(x.name); }
    forall x, y, z | ByClientName()(x, y) && ByClientName()(y, z) ensures ByClientName()(x, z) {
      LexLessTransitive(x.name, y.name, z.name);
    }
  }

  const SearchLimit: nat := 50

  /** `WHERE name ILIKE '%term%' ORDER BY name ASC LIMIT 50`. */
  function SearchRows(rows: seq<DbClient>, term: string): seq<DbClient> {
    Take(Sort(Filter(rows, NameLike(term)), ByClientName()), SearchLimit)
  }

  function SearchClients(rows: seq<DbClient>, term: string): seq<Client> {
    Map(SearchRows(rows, term), DbToClient)
  }

  /** At most 50 rows, each a row of the table with the term in its name, ignoring case. */
  lemma SearchRowsMatch(rows: seq<DbClient>, term: string)
    ensures |SearchRows(rows, term)| <= SearchLimit
    ensures forall i :: 0 <= i < |SearchRows(rows, term)| ==>
              ContainsIgnoreCase(SearchRows(rows, term)[i].name, term) && SearchRows(rows, term)[i] in rows
  {
    var matching := Filter(rows, NameLike(term));
    var sorted := Sort(matching, ByClientName());
    var r := SearchRows(rows, term);
    FilterMembers(rows, NameLike(term));
    forall i | 0 <= i < |r| ensures ContainsIgnoreCase(r[i].name, term) && r[i] in rows {
      assert r[i] == sorted[i];
      assert sorted[i] in multiset(matching);
    }
  }

  /** The rows come in name order. */
  lemma SearchRowsOrdered(rows: seq<DbClient>, term: string)
    ensures forall i, j :: 0 <= i < j < |SearchRows(rows, term)| ==>
              !LexLess(SearchRows(rows, term)[j].name, SearchRows(rows, term)[i].name)
  {
    var sorted := Sort(Filter(rows, NameLike(term)), ByClientName());
    ByClientNameIsStrict();
    SortSorted(Filter(rows, NameLike(term)), ByClientName());
    assert SearchRows(rows, term) == sorted[..|SearchRows(rows, term)|];
  }

  /** When no more than 50 rows match, all of them are returned. */
  lemma SearchRowsComplete(rows: seq<DbClient>, term: string)
    requires Count(rows, NameLike(term)) <= SearchLimit
    ensures multiset(SearchRows(rows, term)) == multiset(Filter(rows, NameLike(term)))
  {
  }

  /**
   * `LIMIT 50` keeps the first fifty matches in name order: fifty rows, or every match when there
   * are fewer; the rows kept and the rows cut off together are all the matches, and no row cut off
   * comes before a kept one by name.
   */
  lemma SearchRowsTop(rows: seq<DbClient>, term: string)
    ensures |SearchRows(rows, term)| == if Count(rows, NameLike(term)) < SearchLimit
                                        then Count(rows, NameLike(term)) else SearchLimit
    ensures var sorted := Sort(Filter(rows, NameLike(term)), ByClientName());
      && multiset(SearchRows(rows, term)) + multiset(sorted[|SearchRows(rows, term)|..])
         == multiset(Filter(rows, NameLike(term)))
      && forall i, j :: 0 <= i < |SearchRows(rows, term)| <= j < |sorted| ==>
           !LexLess(sorted[j].name, SearchRows(rows, term)[i].name)
  {
    var sorted := Sort(Filter(rows, NameLike(term)), ByClientName());
    var r := SearchRows(rows, term);
    ByClientNameIsStrict();
    SortSorted(Filter(rows, NameLike(term)), ByClientName());
    assert r == sorted[..|r|];
    SplitMultiset(sorted, |r|);
    forall i, j | 0 <= i < |r| <= j < |sorted| ensures !LexLess(sorted[j].name, r[i].name) {
      assert r[i] == sorted[i];
      assert !ByClientName()(sorted[j], sorted[i]);
    }
  }

  /** A client with the number of invoices that name it. */
  datatype ClientWithCount = ClientWithCount(client: Client, invoiceCount: nat)

  function WithCount(invoices: seq<DbInvoice>): DbClient -> ClientWithCount {
    (row: DbClient) => ClientWithCount(DbToClient(row), Count(invoices, InvoiceOf(row.id)))
  }

  /** `LEFT JOIN invoices … GROUP BY c.id ORDER BY c.name ASC` with `COUNT(i.id)`. */
  function ClientsWithInvoiceCounts(rows: seq<DbClient>, invoices: seq<DbInvoice>): seq<ClientWithCount> {
    Map(Sort(rows, ByClientName()), WithCount(invoices))
  }

  /** One entry per row, in name order. */
  lemma ClientsWithInvoiceCountsOrdered(rows: seq<DbClient>, invoices: seq<DbInvoice>)
    ensures |ClientsWithInvoiceCounts(rows, invoices)| == |rows|
    ensures forall i, j :: 0 <= i < j < |rows| ==>
              !LexLess(ClientsWithInvoiceCounts(rows, invoices)[j].client.name, ClientsWithInvoiceCounts(rows, invoices)[i].client.name)
  {
    ByClientNameIsStrict();
    SortSorted(rows, ByClientName());
  }

  /** Every row of the table appears, with the number of invoices naming it. */
  lemma ClientsWithInvoiceCountsComplete(rows: seq<DbClient>, invoices: seq<DbInvoice>, i: nat)
    requires i < |rows|
    ensures WithCount(invoices)(rows[i]) in ClientsWithInvoiceCounts(rows, invoices)
  {
    var sorted := Sort(rows, ByClientName());
    assert rows[i] in multiset(sorted);
    var j :| 0 <= j < |sorted| && sorted[j] == rows[i];
    assert ClientsWithInvoiceCounts(rows, invoices)[j] == WithCount(invoices)(rows[i]);
  }

  /** Every entry is a row of the table with the number of invoices naming it. */
  lemma ClientsWithInvoiceCountsSound(rows: seq<DbClient>, invoices: seq<DbInvoice>, j: nat)
    requires j < |ClientsWithInvoiceCounts(rows, invoices)|
    ensures exists i :: 0 <= i < |rows| && ClientsWithInvoiceCounts(rows, invoices)[j] == WithCount(invoices)(rows[i])
  {
    var sorted := Sort(rows, ByClientName());
    assert sorted[j] in multiset(rows);
    var i :| 0 <= i < |rows| && rows[i] == sorted[j];
  }

  /** A count is 0 exactly when no invoice names the client. */
  lemma InvoiceCountZero(invoices: seq<DbInvoice>, id: string)
    ensures Count(invoices, InvoiceOf(id)) == 0 <==> forall i :: 0 <= i < |invoices| ==> invoices[i].clientId != id
  {
    FilterMembers(invoices, InvoiceOf(id));
    if forall i :: 0 <= i < |invoices| ==> invoices[i].clientId != id {
      FilterNone(invoices, InvoiceOf(id));
    } else {
      var i :| 0 <= i < |invoices| && invoices[i].clientId == id;
      assert invoices[i] in Filter(invoices, InvoiceOf(id));
    }
  }

  /** The `clients` table, which `updateClient` and `deleteClient` change in place. */
  class ClientTable {
    var rows: seq<DbClient>

    constructor(initial: seq<DbClient>)
      ensures rows == initial
    {
      rows := initial;
    }

    /** `updateClient`: build the statement; with no SET entry read the client back instead. */
    method Update(d: ClientUpdate, now: string) returns (r: Option<Client>)
      modifies this
      ensures rows == UpdateClient(old(rows), d, now).0
      ensures r == UpdateClient(old(rows), d, now).1
    {
      var updateFields, values, paramCount := BuildUpdate(d);
      if |updateFields| == 0 {
        return GetClientById(rows, d.id);
      }
      rows := Map(rows, UpdateIfId(d, now));
      r := GetClientById(rows, d.id);
    }

    /** `deleteClient`: the invoice count check, then the delete. */
    method Delete(invoices: seq<DbInvoice>, id: string) returns (err: Option<string>)
      modifies this
      ensures DeleteClient(old(rows), invoices, id).Err? ==> rows == old(rows) && err == Some(HasInvoicesError)
      ensures DeleteClient(old(rows), invoices, id).Ok? ==> rows == DeleteClient(old(rows), invoices, id).value && err.None?
    {
      if Count(invoices, InvoiceOf(id)) > 0 {
        return Some(HasInvoicesError);
      }
      rows := Filter(rows, OtherThan(id));
      err := None;
    }
  }
}
