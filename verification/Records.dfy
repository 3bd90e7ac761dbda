/** The rows PostgreSQL, bronze and Silver share, cut down to the columns Gold and the live writer use. */
module Records {
  import opened Collections
  import opened Ids

  /** Fact identifiers: history numbers them, live rows carry a UUID, and the prefixes keep the two apart. */
  datatype Id = Hist(index: nat) | Live(uuid: nat)

  /** A JSON scalar; money is in hundredths of a cent. */
  datatype Json = Number(value: int) | Text(text: string)

  /** Times are microseconds. */
  datatype Txn = Txn(code: Id, time: nat, platform: nat, vendor: nat, buyer: nat, crossBorder: int,
                     financials: map<string, Json>)

  datatype Item = Item(event: Id, key: ProductKey, price: int, qty: int)

  datatype Payment = Payment(id: Id, event: Id, time: nat, stage: string)

  datatype RiskRow = RiskRow(event: Id, mlRisk: string)

  datatype Prediction = Prediction(id: Id, event: Id, time: nat)

  datatype Session = Session(id: Id, buyer: nat, completed: bool)

  datatype Vendor = Vendor(key: nat, totalTxns: string, completed: int, lastActive: nat)

  datatype Buyer = Buyer(code: nat, purchases: int, authLevel: string)

  datatype Product = Product(key: ProductKey, availability: string)

  /** `try_cast(json_extract_string(financials, '$.amount') AS DOUBLE)` */
  function AmountOf(t: Txn): Option<int> {
    if "amount" in t.financials && t.financials["amount"].Number? then Some(t.financials["amount"].value) else None
  }
}
