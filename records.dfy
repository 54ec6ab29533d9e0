/** The records a bill is made of: the customer and shop details, and the
    immutable snapshot that generating a bill appends to the history. */
module Records {
  import opened Valuation
  import opened BillTotals

  datatype Contact = Contact(name: string, phone: string, address: string)

  /** A saved customer: a contact with the id it was saved under. */
  datatype Customer = Customer(id: nat, contact: Contact)

  datatype ShopDetails = ShopDetails(
    name: string, phone: string, email: string, address: string,
    printerIp: string, bridgeUrl: string)

  /** A finalised bill, never changed after it is stored. */
  datatype Bill = Bill(
    billNumber: string, date: string, customer: Contact,
    items: seq<GoldItem>, silverItems: seq<SilverItem>, oldGoldItems: seq<OldGoldItem>,
    paymentDetails: seq<Payment>, totals: Totals, shopDetails: ShopDetails)

  function BillNumberOf(b: Bill): string { b.billNumber }
}
