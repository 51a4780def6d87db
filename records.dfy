/**
 * The typed fields of the library's model objects that the hash generator reads:
 * an invoice submission ("RegistroAlta"), an invoice cancellation ("RegistroAnulacion"),
 * an invoice query, or some other record class.
 */
module Records {
  import opened Wrappers

  /** IDFactura: who issued the invoice, its series and number, and its issue date. */
  datatype InvoiceId = InvoiceId(issuerNif: string, seriesNumber: string, issueDate: string)

  /** The previous record a chaining block points to; its hash is trusted as given. */
  datatype PreviousInvoice = PreviousInvoice(issuerNif: string, seriesNumber: string, issueDate: string, hash: Option<string>)

  /**
   * The chaining block ("Encadenamiento"). `previousInvoice` is what its getter
   * returns: nothing for a first record in the chain.
   */
  datatype Chaining = Chaining(previousInvoice: Option<PreviousInvoice>)

  /** The invoice type is either a backed enum case (its backing value) or a plain scalar (its string form). */
  datatype InvoiceType = BackedCase(value: string) | Scalar(text: string)

  /** Amounts are held in cents, exactly. */
  datatype Record =
    | Submission(invoiceId: InvoiceId, invoiceType: InvoiceType, taxAmount: int, totalAmount: int,
                 chaining: Option<Chaining>, recordTimestamp: string)
    | Cancellation(invoiceId: InvoiceId, chaining: Option<Chaining>, recordTimestamp: string)
    | Query
    | OtherRecord(className: string)
}
