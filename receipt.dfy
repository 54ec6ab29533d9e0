/** The plain-text thermal receipt (`prepareThermalText` in app.js): a fixed
    order of sections, some present only under conditions, built from the
    `line`, `center` and `wrap` primitives. Number and date formatting are
    locale services and enter as uninterpreted functions. */
module Receipt {
  import opened Lists
  import opened Valuation
  import opened BillTotals
  import opened ThermalLayout
  import opened Records

  /** `formatCurrency`, `toFixed`, plain number-to-text conversion, and
      `new Date(d).toLocaleDateString('en-IN')` for a date `d`. */
  datatype Formats = Formats(currency: real -> string, fixed: (real, nat) -> string, number: real -> string,
                             date: string -> string)

  /** What the receipt is printed from: a stored bill (with its number and
      the date it was generated) or the live estimate (dated now). */
  datatype Source = Source(
    billNumber: Option<string>, date: string, customer: Contact,
    items: seq<GoldItem>, silverItems: seq<SilverItem>, payments: seq<Payment>,
    totals: Totals, shopName: string)

  /** A stored bill printed again: the receipt of its snapshot, dated with
      the day the bill was generated. */
  function StoredSource(b: Bill): (src: Source)
    ensures src.billNumber == Some(b.billNumber) && src.date == b.date && src.customer == b.customer
    ensures src.items == b.items && src.silverItems == b.silverItems && src.payments == b.paymentDetails
    ensures src.totals == b.totals && src.shopName == b.shopDetails.name
  {
    Source(Some(b.billNumber), b.date, b.customer, b.items, b.silverItems, b.paymentDetails, b.totals, b.shopDetails.name)
  }

  const Rule: string := "--------------------------------\n"
  const DoubleRule: string := "================================\n"

  function Footer(): string { Center("Thank You!") + "\n\n\n\n" }

  function Title(src: Source): string
  {
    match src.billNumber
    case Some(n) => "DUPLICATE BILL (" + n + ")"
    case None => "ESTIMATE"
  }

  function OrDefault(s: string, default: string): string
  {
    if s == [] then default else s
  }

  function Header(src: Source): string
  {
    Center(OrDefault(src.shopName, "JewelBill")) + Rule + Center(Title(src)) + Rule
  }

  function CustomerBlock(c: Contact, date: string): string
  {
    Line("Date:", date)
    + "Cust: " + OrDefault(c.name, "N/A") + "\n"
    + (if c.phone != [] then "Phone: " + c.phone + "\n" else [])
    + (if c.address != [] then "Addr: " + Wrap(c.address) else [])
    + Rule
  }

  function GoldEntryText(g: GoldItem, fmt: Formats): string
  {
    g.name + " (" + fmt.number(g.karat as real) + "K)\n"
    + Line(" Net Wt:" + fmt.fixed(g.netWeight, 3) + "g", fmt.currency(g.goldValue))
    + Line(" Making Charge:", fmt.currency(MakingChargeOf(g)))
  }

  function GoldLines(items: seq<GoldItem>, fmt: Formats): string
  {
    Flatten(items, (g: GoldItem) => GoldEntryText(g, fmt))
  }

  function GoldSection(items: seq<GoldItem>, fmt: Formats): string
  {
    if items == [] then [] else "Gold Items\n" + GoldLines(items, fmt) + Rule
  }

  function SilverEntryText(s: SilverItem, fmt: Formats): string
  {
    s.name + "\n" + Line(" Weight:" + fmt.fixed(s.weight, 2) + "g", fmt.currency(s.value))
  }

  function SilverLines(items: seq<SilverItem>, fmt: Formats): string
  {
    Flatten(items, (g: SilverItem) => SilverEntryText(g, fmt))
  }

  function SilverSection(items: seq<SilverItem>, fmt: Formats): string
  {
    if items == [] then [] else "Silver Items\n" + SilverLines(items, fmt) + Rule
  }

  /** A summary line printed only for a positive amount. */
  function AmountLine(caption: string, amount: real, fmt: Formats): string
  {
    if amount > 0.0 then Line(caption, fmt.currency(amount)) else []
  }

  /** The subtotal lines above "Total Before GST". */
  function SubtotalLines(t: Totals, fmt: Formats): string
  {
    AmountLine("Gold Value:", t.goldSubtotal, fmt)
    + AmountLine("Wastage:", t.wastageValue, fmt)
    + AmountLine("Making Charges:", t.goldMakingCharges, fmt)
    + AmountLine("Silver Value:", t.silverSubtotal, fmt)
  }

  /** The deductions between "Bill Total" and "NET PAYABLE". */
  function DeductionLines(t: Totals, fmt: Formats): string
  {
    AmountLine("Old Gold (-):", t.oldGoldTotal, fmt) + AmountLine("Discount (-):", t.discount, fmt)
  }

  function SummaryBlock(t: Totals, fmt: Formats): string
  {
    SubtotalLines(t, fmt)
    + Line("Total Before GST:", fmt.currency(t.totalBeforeGst))
    + AmountLine("GST (" + fmt.number(t.gstPercent) + "%):", t.gstValue, fmt)
    + Line("Bill Total:", fmt.currency(t.grandTotal))
    + DeductionLines(t, fmt)
    + DoubleRule + Line("NET PAYABLE:", fmt.currency(t.netPayable)) + DoubleRule + "\n"
  }

  function PaymentLine(p: Payment, fmt: Formats): string
  {
    Line(p.mode + ":", fmt.currency(p.amount))
  }

  function PaymentLines(payments: seq<Payment>, fmt: Formats): string
  {
    Flatten(payments, (p: Payment) => PaymentLine(p, fmt))
  }

  /** Payments are listed only on a stored bill that has some. */
  function PaymentsBlock(src: Source, fmt: Formats): string
  {
    if src.billNumber.Some? && src.payments != [] then
      "Payments Received\n" + PaymentLines(src.payments, fmt) + Rule
      + Line("Total Paid:", fmt.currency(src.totals.totalPaid))
      + Line("Balance Due:", fmt.currency(src.totals.balanceDue)) + Rule
    else []
  }

  /** The whole receipt, section by section. */
  function ThermalText(src: Source, fmt: Formats): string
  {
    Header(src) + CustomerBlock(src.customer, fmt.date(src.date))
    + GoldSection(src.items, fmt) + SilverSection(src.silverItems, fmt)
    + SummaryBlock(src.totals, fmt) + PaymentsBlock(src, fmt) + Footer()
  }

  /** The renderer, accumulating the text section by section as the source
      does with `+=`. */
  method PrepareThermalText(src: Source, fmt: Formats) returns (text: string)
    ensures text == ThermalText(src, fmt)
  {
    var title := if src.billNumber.Some? then "DUPLICATE BILL (" + src.billNumber.value + ")" else "ESTIMATE";
    text := Center(OrDefault(src.shopName, "JewelBill")) + Rule + Center(title) + Rule;
    assert text == Header(src);
    text := AppendCustomer(text, src.customer, fmt.date(src.date));
    text := AppendGoldSection(text, src.items, fmt);
    text := AppendSilverSection(text, src.silverItems, fmt);
    text := AppendSummary(text, src.totals, fmt);
    text := AppendPayments(text, src, fmt);
    text := text + Footer();
  }

  method AppendCustomer(text: string, c: Contact, date: string) returns (out: string)
    ensures out == text + CustomerBlock(c, date)
  {
    var block := Line("Date:", date) + "Cust: " + OrDefault(c.name, "N/A") + "\n";
    if c.phone != [] {
      block := block + ("Phone: " + c.phone + "\n");
    } else {
      assert block + [] == block;
    }
    if c.address != [] {
      var wrapped := WrapText(c.address);
      block := block + ("Addr: " + wrapped);
    } else {
      assert block + [] == block;
    }
    block := block + Rule;
    out := text + block;
  }

  method AppendGoldSection(text: string, items: seq<GoldItem>, fmt: Formats) returns (out: string)
    ensures out == text + GoldSection(items, fmt)
  {
    out := text;
    if items == [] {
      assert out == text + [];
      return;
    }
    var lines := "";
    var i := 0;
    while i < |items|
      invariant 0 <= i <= |items|
      invariant lines == GoldLines(items[..i], fmt)
    {
      var item := items[i];
      var entry := item.name + " (" + fmt.number(item.karat as real) + "K)\n"
        + Line(" Net Wt:" + fmt.fixed(item.netWeight, 3) + "g", fmt.currency(item.goldValue))
        + Line(" Making Charge:", fmt.currency(MakingChargeOf(item)));
      assert items[..i + 1][..i] == items[..i];
      lines := lines + entry;
      i := i + 1;
    }
    assert items[..i] == items;
    out := out + ("Gold Items\n" + lines + Rule);
  }

  method AppendSilverSection(text: string, items: seq<SilverItem>, fmt: Formats) returns (out: string)
    ensures out == text + SilverSection(items, fmt)
  {
    out := text;
    if items == [] {
      assert out == text + [];
      return;
    }
    var lines := "";
    var i := 0;
    while i < |items|
      invariant 0 <= i <= |items|
      invariant lines == SilverLines(items[..i], fmt)
    {
      var item := items[i];
      var entry := item.name + "\n" + Line(" Weight:" + fmt.fixed(item.weight, 2) + "g", fmt.currency(item.value));
      assert items[..i + 1][..i] == items[..i];
      lines := lines + entry;
      i := i + 1;
    }
    assert items[..i] == items;
    out := out + ("Silver Items\n" + lines + Rule);
  }

  method AppendSummary(text: string, t: Totals, fmt: Formats) returns (out: string)
    ensures out == text + SummaryBlock(t, fmt)
  {
    var block := SubtotalText(t, fmt);
    block := block + Line("Total Before GST:", fmt.currency(t.totalBeforeGst));
    block := AppendAmount(block, "GST (" + fmt.number(t.gstPercent) + "%):", t.gstValue, fmt);
    block := block + Line("Bill Total:", fmt.currency(t.grandTotal));
    var deductions := DeductionText(t, fmt);
    block := block + deductions;
    block := block + DoubleRule + Line("NET PAYABLE:", fmt.currency(t.netPayable)) + DoubleRule + "\n";
    out := text + block;
  }

  method SubtotalText(t: Totals, fmt: Formats) returns (lines: string)
    ensures lines == SubtotalLines(t, fmt)
  {
    lines := AppendAmount([], "Gold Value:", t.goldSubtotal, fmt);
    assert lines == AmountLine("Gold Value:", t.goldSubtotal, fmt);
    lines := AppendAmount(lines, "Wastage:", t.wastageValue, fmt);
    lines := AppendAmount(lines, "Making Charges:", t.goldMakingCharges, fmt);
    lines := AppendAmount(lines, "Silver Value:", t.silverSubtotal, fmt);
  }

  method DeductionText(t: Totals, fmt: Formats) returns (lines: string)
    ensures lines == DeductionLines(t, fmt)
  {
    lines := AppendAmount([], "Old Gold (-):", t.oldGoldTotal, fmt);
    assert lines == AmountLine("Old Gold (-):", t.oldGoldTotal, fmt);
    lines := AppendAmount(lines, "Discount (-):", t.discount, fmt);
  }

  /** Appends a summary line only for a positive amount. */
  method AppendAmount(text: string, caption: string, amount: real, fmt: Formats) returns (out: string)
    ensures out == text + AmountLine(caption, amount, fmt)
  {
    if amount > 0.0 {
      out := text + Line(caption, fmt.currency(amount));
    } else {
      out := text;
      assert out == text + [];
    }
  }

  method AppendPayments(text: string, src: Source, fmt: Formats) returns (out: string)
    ensures out == text + PaymentsBlock(src, fmt)
  {
    out := text;
    if !(src.billNumber.Some? && src.payments != []) {
      assert out == text + [];
      return;
    }
    var payments := src.payments;
    var lines := "";
    var i := 0;
    while i < |payments|
      invariant 0 <= i <= |payments|
      invariant lines == PaymentLines(payments[..i], fmt)
    {
      var p := payments[i];
      assert payments[..i + 1][..i] == payments[..i];
      lines := lines + Line(p.mode + ":", fmt.currency(p.amount));
      i := i + 1;
    }
    assert payments[..i] == payments;
    out := out + ("Payments Received\n" + lines + Rule
      + Line("Total Paid:", fmt.currency(src.totals.totalPaid))
      + Line("Balance Due:", fmt.currency(src.totals.balanceDue)) + Rule);
  }

  /** The k-th gold item's text sits between the texts of the items before
      it and those after it. */
  lemma GoldEntryInPlace(items: seq<GoldItem>, k: nat, fmt: Formats)
    requires k < |items|
    ensures GoldLines(items, fmt)
         == GoldLines(items[..k], fmt) + GoldEntryText(items[k], fmt) + GoldLines(items[k + 1..], fmt)
  {
    FlattenInPlace(items, k, (g: GoldItem) => GoldEntryText(g, fmt));
  }

  lemma LineNotEmpty(caption: string, value: string)
    ensures |Line(caption, value)| > 0
  {
    LineLayout(caption, value);
  }

  /** A summary line is printed exactly when its amount is positive. */
  lemma AmountLinePresence(caption: string, amount: real, fmt: Formats)
    ensures AmountLine(caption, amount, fmt) == [] <==> amount <= 0.0
  {
    LineNotEmpty(caption, fmt.currency(amount));
  }

  /** The gold section is absent without gold items; otherwise it opens with
      its heading and closes with a rule. */
  lemma GoldSectionShape(items: seq<GoldItem>, fmt: Formats)
    ensures GoldSection(items, fmt) == [] <==> items == []
    ensures items != [] ==>
      var sec := GoldSection(items, fmt);
      |sec| >= |"Gold Items\n"| + |Rule|
      && sec[..|"Gold Items\n"|] == "Gold Items\n" && sec[|sec| - |Rule|..] == Rule
  {
    if items != [] {
      var sec := GoldSection(items, fmt);
      var body := GoldLines(items, fmt);
      assert sec == "Gold Items\n" + (body + Rule);
      assert sec == ("Gold Items\n" + body) + Rule;
    }
  }

  lemma SilverSectionShape(items: seq<SilverItem>, fmt: Formats)
    ensures SilverSection(items, fmt) == [] <==> items == []
    ensures items != [] ==>
      var sec := SilverSection(items, fmt);
      |sec| >= |"Silver Items\n"| + |Rule|
      && sec[..|"Silver Items\n"|] == "Silver Items\n" && sec[|sec| - |Rule|..] == Rule
  {
    if items != [] {
      var sec := SilverSection(items, fmt);
      var body := SilverLines(items, fmt);
      assert sec == "Silver Items\n" + (body + Rule);
      assert sec == ("Silver Items\n" + body) + Rule;
    }
  }

  /** Payments, with total paid and balance due, are printed only on a
      stored bill that has at least one payment; the live estimate never
      shows them. */
  lemma PaymentsBlockPresence(src: Source, fmt: Formats)
    ensures PaymentsBlock(src, fmt) == [] <==> (src.billNumber.None? || src.payments == [])
    ensures src.billNumber.Some? && src.payments != [] ==>
      var block := PaymentsBlock(src, fmt);
      block[..|"Payments Received\n"|] == "Payments Received\n"
  {
    if src.billNumber.Some? && src.payments != [] {
      var rest := PaymentLines(src.payments, fmt) + Rule
        + Line("Total Paid:", fmt.currency(src.totals.totalPaid))
        + Line("Balance Due:", fmt.currency(src.totals.balanceDue)) + Rule;
      assert PaymentsBlock(src, fmt) == "Payments Received\n" + rest;
    }
  }

  /** `line` occurs in `text` starting at position `i`. */
  predicate LineAt(text: string, line: string, i: nat)
  {
    i + |line| <= |text| && text[i..i + |line|] == line
  }

  /** Whatever the amounts, the summary prints "Total Before GST", "Bill
      Total" and "NET PAYABLE", in that order; the positions are returned. */
  lemma SummaryFixedLines(t: Totals, fmt: Formats) returns (i: nat, j: nat, k: nat)
    ensures var block := SummaryBlock(t, fmt);
      var before := Line("Total Before GST:", fmt.currency(t.totalBeforeGst));
      var total := Line("Bill Total:", fmt.currency(t.grandTotal));
      var net := Line("NET PAYABLE:", fmt.currency(t.netPayable));
      && LineAt(block, before, i) && i + |before| <= j
      && LineAt(block, total, j) && j + |total| <= k
      && LineAt(block, net, k)
  {
    var gstCaption := "GST (" + fmt.number(t.gstPercent) + "%):";
    i, j, k := FixedLinesAt(SubtotalLines(t, fmt), Line("Total Before GST:", fmt.currency(t.totalBeforeGst)),
                            AmountLine(gstCaption, t.gstValue, fmt), Line("Bill Total:", fmt.currency(t.grandTotal)),
                            DeductionLines(t, fmt), Line("NET PAYABLE:", fmt.currency(t.netPayable)));
  }

  lemma FixedLinesAt(a: string, before: string, gst: string, total: string, d: string, net: string)
    returns (i: nat, j: nat, k: nat)
    ensures var block := a + before + gst + total + d + DoubleRule + net + DoubleRule + "\n";
      && LineAt(block, before, i) && i + |before| <= j
      && LineAt(block, total, j) && j + |total| <= k
      && LineAt(block, net, k)
  {
    i, j, k := InOrder(a, before, gst, total, d, DoubleRule, net, DoubleRule, "\n");
  }

  /** The positions of `x`, `y` and `z` in `a + x + b + y + c + d + z + e + f`. */
  lemma InOrder<T>(a: seq<T>, x: seq<T>, b: seq<T>, y: seq<T>, c: seq<T>, d: seq<T>, z: seq<T>,
                   e: seq<T>, f: seq<T>)
    returns (i: nat, j: nat, k: nat)
    ensures var s := a + x + b + y + c + d + z + e + f;
      && i == |a| && j == i + |x| + |b| && k == j + |y| + |c| + |d|
      && k + |z| <= |s|
      && s[i..i + |x|] == x && s[j..j + |y|] == y && s[k..k + |z|] == z
  {
    var s1 := a + x;
    var s2 := s1 + b;
    var s3 := s2 + y;
    var s4 := s3 + c;
    var s5 := s4 + d;
    var s6 := s5 + z;
    var s7 := s6 + e;
    i, j, k := |a|, |s2|, |s5|;
    Appended(a, x);
    Appended(s2, y);
    Appended(s5, z);
    Extended(s1, b, i, i + |x|);
    Extended(s2, y, i, i + |x|);
    Extended(s3, c, i, i + |x|);
    Extended(s3, c, j, j + |y|);
    Extended(s4, d, i, i + |x|);
    Extended(s4, d, j, j + |y|);
    Extended(s5, z, i, i + |x|);
    Extended(s5, z, j, j + |y|);
    Extended(s6, e, i, i + |x|);
    Extended(s6, e, j, j + |y|);
    Extended(s6, e, k, k + |z|);
    Extended(s7, f, i, i + |x|);
    Extended(s7, f, j, j + |y|);
    Extended(s7, f, k, k + |z|);
  }

  /** The second part of a concatenation sits right after the first. */
  lemma Appended<T>(u: seq<T>, w: seq<T>)
    ensures (u + w)[|u|..|u| + |w|] == w
  {
  }

  /** Appending leaves every slice of the first part in place. */
  lemma Extended<T>(u: seq<T>, v: seq<T>, lo: nat, hi: nat)
    requires lo <= hi <= |u|
    ensures (u + v)[lo..hi] == u[lo..hi]
  {
  }

  /** A receipt opens with the shop header and the title naming the bill
      (or ESTIMATE) and closes with the "Thank You!" footer. */
  lemma ReceiptFraming(src: Source, fmt: Formats)
    ensures var text := ThermalText(src, fmt);
      && |text| >= |Header(src)| + |Footer()|
      && text[..|Header(src)|] == Header(src)
      && text[|text| - |Footer()|..] == Footer()
    ensures Title(src) == (if src.billNumber.Some? then "DUPLICATE BILL (" + src.billNumber.value + ")" else "ESTIMATE")
  {
    var h, f := Header(src), Footer();
    var c, g, s := CustomerBlock(src.customer, fmt.date(src.date)), GoldSection(src.items, fmt), SilverSection(src.silverItems, fmt);
    var m, p := SummaryBlock(src.totals, fmt), PaymentsBlock(src, fmt);
    Framed(h, c, g, s, m, p, f);
  }

  lemma Framed<T>(h: seq<T>, c: seq<T>, g: seq<T>, s: seq<T>, m: seq<T>, p: seq<T>, f: seq<T>)
    ensures var text := h + c + g + s + m + p + f;
      && |text| >= |h| + |f| && text[..|h|] == h && text[|text| - |f|..] == f
  {
    var text := h + c + g + s + m + p + f;
    assert text == h + (c + g + s + m + p) + f;
  }
}
