/**
 * The rows the services read and write (the `DbClient`, `DbInvoice`, `DbInvoiceItem` and
 * `DbInvoiceAttachment` shapes of src/services/clientService.ts and src/services/invoiceService.ts).
 * A nullable column is an `Option`; NUMERIC columns are already numbers; timestamps are already
 * parsed. A table is the sequence of its rows in the order they were created, so a query
 * `ORDER BY created_at ASC` reads them in sequence order.
 */
module Schema {
  import opened Wrappers
  import opened Domain

  datatype DbClient = DbClient(
    id: string,
    name: string,
    email: Option<string>,
    phone: Option<string>,
    address: string,
    city: string,
    state: string,
    zipCode: string,
    taxId: Option<string>,
    defaultUnitPrice: Option<real>,
    requiresCourseInfo: Option<bool>,
    billingStreet: Option<string>,
    billingCity: Option<string>,
    billingState: Option<string>,
    billingZip: Option<string>,
    userId: string,
    createdAt: string,
    updatedAt: string)

  datatype DbInvoice = DbInvoice(
    id: string,
    number: string,
    clientId: string,
    status: Status,
    subtotal: real,
    tax: real,
    total: real,
    issuedDate: int,
    dueDate: int,
    paymentTermsDays: Option<int>,
    paymentTermsDescription: Option<string>,
    notes: Option<string>,
    paymentMethod: Option<string>,
    transactionId: Option<string>,
    paymentDate: Option<int>,
    courseName: Option<string>,
    courseId: Option<string>,
    cohort: Option<string>,
    trainingDates: Option<string>,
    userId: string,
    updatedAt: string)

  datatype DbItem = DbItem(
    id: string,
    invoiceId: string,
    description: string,
    quantity: real,
    unitPrice: real,
    amount: real,
    userId: string)

  datatype DbAttachment = DbAttachment(
    id: string,
    invoiceId: string,
    name: string,
    fileSize: string,
    fileType: string,
    userId: string)
}
