/**
 * The record shapes of the invoicing domain: invoices with their items, payment terms and
 * course information, and clients. Dates are timestamps in milliseconds (already parsed).
 */
module Domain {
  import opened Wrappers
  import opened Seqs

  /** Milliseconds in a day (`1000 * 60 * 60 * 24`). */
  const DAY: int := 86400000

  datatype Status = Paid | Pending | Draft | Overdue

  /** The wire spelling of a status. */
  function StatusName(s: Status): string {
    match s
    case Paid => "paid"
    case Pending => "pending"
    case Draft => "draft"
    case Overdue => "overdue"
  }

  datatype InvoiceItem = InvoiceItem(
    id: string,
    description: string,
    quantity: real,
    unitPrice: real,
    amount: real)

  datatype PaymentTerms = PaymentTerms(days: int, description: string)

  datatype CourseInfo = CourseInfo(
    courseName: string,
    courseId: string,
    cohort: string,
    trainingDates: string)

  /** The client's details as embedded in an invoice. */
  datatype InvoiceClient = InvoiceClient(
    name: string,
    address: string,
    city: string,
    state: string,
    zipCode: string,
    taxId: Option<string>)

  datatype Attachment = Attachment(name: string, size: string, fileType: string)

  datatype Invoice = Invoice(
    id: string,
    number: string,
    status: Status,
    amount: real,
    dueDate: int,
    issuedDate: int,
    paymentTerms: Option<PaymentTerms>,
    client: InvoiceClient,
    items: seq<InvoiceItem>,
    subtotal: real,
    tax: real,
    total: real,
    notes: Option<string>,
    paymentMethod: Option<string>,
    transactionId: Option<string>,
    paymentDate: Option<int>,
    courseInfo: Option<CourseInfo>,
    attachments: Option<seq<Attachment>>)

  datatype BillingAddress = BillingAddress(
    address: string,
    city: string,
    state: string,
    zipCode: string)

  datatype Client = Client(
    id: string,
    name: string,
    email: string,
    phone: Option<string>,
    address: string,
    city: string,
    state: string,
    zipCode: string,
    taxId: Option<string>,
    defaultUnitPrice: Option<real>,
    requiresCourseInfo: bool,
    billingAddress: Option<BillingAddress>,
    createdAt: Option<string>,
    updatedAt: Option<string>)

  /** `s || fallback` for an optional string: absent and empty both fall back. */
  function OrString(s: Option<string>, fallback: string): (r: string)
    ensures s.Some? && s.value != "" ==> r == s.value
    ensures (s.None? || s.value == "") ==> r == fallback
  {
    if s.Some? && s.value != "" then s.value else fallback
  }

  function HasId(id: string): Client -> bool { (c: Client) => c.id == id }

  function HasName(name: string): Client -> bool { (c: Client) => c.name == name }

  /** The first client whose id is `id` (`clients.find(c => c.id === id)`). */
  function FindClientById(clients: seq<Client>, id: string): (r: Option<Client>)
    ensures r.None? <==> forall i :: 0 <= i < |clients| ==> clients[i].id != id
    ensures r.Some? ==> exists i :: 0 <= i < |clients| && clients[i] == r.value && r.value.id == id
                                    && forall j :: 0 <= j < i ==> clients[j].id != id
  {
    FindFirst(clients, HasId(id))
  }

  /** The first client whose name is `name` (`clients.find(c => c.name === name)`). */
  function FindClientByName(clients: seq<Client>, name: string): (r: Option<Client>)
    ensures r.None? <==> forall i :: 0 <= i < |clients| ==> clients[i].name != name
    ensures r.Some? ==> exists i :: 0 <= i < |clients| && clients[i] == r.value && r.value.name == name
                                    && forall j :: 0 <= j < i ==> clients[j].name != name
  {
    FindFirst(clients, HasName(name))
  }
}
