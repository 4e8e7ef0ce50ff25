/** Ledger records as the bot reads them back for the balance history. */
module TokenTransactions {
  import opened Wrappers
  import JsNumbers

  datatype TokenTransactionType = ADD | SPEND

  /** One ledger entry; `createdAt` is a timestamp in milliseconds. The amount is a JavaScript
      number: a purchase credited with `parseInt` of a malformed payload stores `NaN`. */
  datatype TokenTransaction = TokenTransaction(
    id: Option<string>,
    userId: string,
    amount: JsNumbers.JsNumber,
    transactionType: TokenTransactionType,
    description: string,
    createdAt: int)
}
