/** The records served by the listing endpoint, and the copies the classifier makes of them. */
module Records {

  /**
   * One record as the endpoint returns it. `disposition` is free text: the
   * code only ever compares it with "open" and "closed" and never restricts it.
   */
  datatype Record = Record(id: string, color: string, disposition: string)

  /** The copy `{ ...record, isPrimary }`: the original fields and the added flag. */
  datatype Classified = Classified(record: Record, isPrimary: bool)
}
