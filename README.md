# JewelBill billing core in Dafny

JewelBill is a single-page billing tool for a jewellery shop. Its logic
lives in `app.js`. The shopkeeper sets the 22-karat gold rate and the silver
rate, then enters gold items, silver items, old gold taken in exchange and
payments. The page keeps a running summary with wastage, making charges,
GST, old-gold deduction, discount, net payable and balance due. Generating
a bill gives it the next number of the form `AJ001`, stores a snapshot in
the bill history and may remember the customer. The page can also print a
32-column plain-text receipt for a thermal printer.

This project models that core:

- `lists.dfy`: the `reduce`, `filter`, `findIndex` and concatenation
  patterns the application uses, with their algebra.
- `strings.dfy`: `trim` (the JavaScript whitespace set) and ASCII
  lower-casing.
- `billnumber.dfy`: bill-number formatting (`AJ` plus the counter padded
  to three digits) and the `parseInt(billNumber.replace("AJ", ""))` parse.
  The two are proved to be a round trip.
- `valuation.dfy`: the entry records, the valuation of each kind of entry
  at the current rates, and the validation done by the four entry forms.
- `totals.dfy`: `calculateTotals`, its closed form and its properties.
- `layout.dfy` and `receipt.dfy`: the thermal receipt text
  (`prepareThermalText` with its `line`, `center` and `wrap` helpers).
- `records.dfy`: the customer, shop and stored-bill records.
- `billing.dfy`: the session state as a class whose methods update it in
  place. It covers rate setting, the form submit handlers, item and bill
  deletion, bill generation and resetting for a new bill. The session
  invariant `Valid()` holds after every operation:
  - every entry is accepted and valued at the current rates;
  - the saved customers are pairwise distinct;
  - the bill history is numbered by the counter in increasing order.

Inputs the page reads from the DOM are parameters. `parseFloat` results are
`Option<real>`, with `None` standing for `NaN`. Confirmation dialogs are
`bool` parameters. `Date.now()` identifiers and dates are parameters too.
Amount formatting (`toLocaleString`, `toFixed`) and date formatting
(`toLocaleDateString`) are the functions of a `Formats` value, left
uninterpreted; the receipt prints `fmt.date` of the stored bill's date or of
the current time.

## Model

| member | source | states |
|---|---|---|
| Lists.SumBy | app.js:268-280 | the `reduce` sum with start 0: an empty list sums to 0 and a one-entry list to that entry's term |
| Lists.SumByAppend | app.js:268-280 | a `reduce` sum over a concatenation is the sum of the two parts' sums |
| Lists.SumByNonNegative | app.js:268-280 | a sum of non-negative terms is non-negative |
| Lists.SumByProportional | app.js:268 | when every term of one list is k times the matching term of another, its sum is k times the other's sum |
| Lists.FlattenAppend | app.js:588-594 | the text appended by a `forEach` over a concatenation is the two parts' texts concatenated |
| Lists.FlattenInPlace | app.js:588-590 | the piece of the k-th element sits between the pieces of the elements before and after it |
| Lists.Without | app.js:458-461 | a `filter` by id keeps only elements of the list whose key differs from the one removed, and never lengthens the list |
| Lists.WithoutSingleton | app.js:458-461 | a one-element list keeps its element exactly when the element's key differs from the removed one |
| Lists.WithoutAppend | app.js:458-461 | filtering a concatenation is filtering each part: together with the one-element case, the survivors keep their order and their multiplicity |
| Lists.WithoutKeeps | app.js:458-461 | every element whose key differs from the removed one survives the `filter` |
| Lists.WithoutAbsent | app.js:341 | filtering out a key no element has leaves the list unchanged |
| Lists.WithoutUndoesAppend | app.js:397 | deleting the id of an entry just pushed with a fresh id restores the previous list |
| Lists.WithoutKeepsIncreasing | app.js:341 | filtering keeps a list ordered by any rank ordered |
| Lists.IndexOfKey | app.js:396 | `findIndex`: the first position whose key matches, none exactly when no element matches |
| Strings.TrimStart | app.js:667 | removes exactly the leading whitespace: what is removed is whitespace, what remains does not start with whitespace |
| Strings.TrimEnd | app.js:667 | removes exactly the trailing whitespace |
| Strings.Trim | app.js:667 | the result neither starts nor ends with whitespace, is the trimmed-start text with only whitespace removed at its end, and a text already trimmed is unchanged |
| Strings.Lower | app.js:677 | lower-cases character by character and keeps the length |
| Strings.LowerIdempotent | app.js:677 | lower-casing an already lower-cased text changes nothing |
| Strings.LowerIgnoresCase | app.js:677 | two texts that differ only in the case of their letters lower-case to the same text, which is what the duplicate-name check relies on |
| BillNumbers.DigitChar | app.js:130 | a value below 10 becomes a decimal digit |
| BillNumbers.DigitValue | app.js:339 | a decimal digit has a value below 10 |
| BillNumbers.Decimal | app.js:130 | `toString` of a counter is a non-empty digit string, a single digit exactly below 10 |
| BillNumbers.DecimalValue | app.js:130 | reading back the decimal text of n gives n |
| BillNumbers.Repeat | app.js:130 | the padding is `count` copies of the fill character |
| BillNumbers.LeadingZerosValue | app.js:130 | leading zeros do not change a digit string's value |
| BillNumbers.PadStart | app.js:130 | `padStart`: the text right-aligned in at least `width` characters, filled on the left |
| BillNumbers.FormatBillNumber | app.js:128-132 | a bill number is `AJ` followed by at least three digits |
| BillNumbers.IndexOf | app.js:339 | the first occurrence of the pattern that `replace` substitutes, none when absent |
| BillNumbers.ReplaceFirst | app.js:339 | `replace` with a string pattern: the first occurrence is replaced and a text without one is left as is; its `AJ` case is `BillNumbers.StripPrefix` |
| BillNumbers.LeadingDigits | app.js:339 | the longest digit prefix `parseInt` reads |
| BillNumbers.ParseInt | app.js:339 | `parseInt`: optional leading whitespace and sign, then the longest digit prefix; not a number when there are no digits; its value on digit strings is `BillNumbers.ParseDigits` |
| BillNumbers.ParseBillNumber | app.js:339 | `parseInt(billNumber.replace("AJ", ""))`; `BillNumbers.FormatParseRoundTrip` states that it inverts `FormatBillNumber` |
| BillNumbers.FormatParseRoundTrip | app.js:339 | parsing a formatted bill number gives back its counter |
| BillNumbers.StripPrefix | app.js:339 | replacing the `AJ` prefix by nothing leaves the rest |
| BillNumbers.ParseDigits | app.js:339 | `parseInt` of a digit string is its decimal value |
| BillNumbers.AllDigitsLeading | app.js:339 | `parseInt` reads a digit string to its end |
| BillNumbers.FormatInjective | app.js:128-132 | distinct counters give distinct bill numbers |
| BillNumbers.FirstBillNumbers | app.js:128-132 | the first four bills are AJ001 to AJ004 |
| BillNumbers.TwoDigitBillNumber | app.js:130 | counter 42 is padded to AJ042 |
| BillNumbers.WideBillNumber | app.js:130 | counter 1000 is not truncated: AJ1000 |
| BillNumbers.FormatWithoutPadding | app.js:130 | a counter with at least three digits is written after the prefix with no padding |
| BillNumbers.FormatWithPadding | app.js:130 | counters of one or two digits get two or one leading zeros |
| Valuation.OrZero | app.js:267 | a number that is missing or not a number counts as 0 |
| Valuation.GoldValuedAt | app.js:216-221 | net weight is gross less stone, the purity-adjusted weight scales it by karat/22, and the value is that weight times the gold rate |
| Valuation.SilverValuedAt | app.js:222 | a silver value is its weight times the silver rate |
| Valuation.OldGoldValuedAt | app.js:223-227 | the purity-adjusted weight scales the net weight by purity/91.6, and the value is that weight times the gold rate |
| Valuation.MakingChargeOf | app.js:270 | a flat charge is its value, a per-gram charge is scaled by the gross weight; non-negative for non-negative weight and charge |
| Valuation.RevalueGold | app.js:216-221 | a gold item valued at the rate: net weight, purity-adjusted weight and value are recomputed, nothing else changes |
| Valuation.RevalueSilver | app.js:222 | a silver item's value is weight times rate, nothing else changes |
| Valuation.RevalueOldGold | app.js:223-227 | old gold valued at the rate against 91.6 % purity, nothing else changes |
| Valuation.GoldValueLinearInRate | app.js:220 | a gold item's value is proportional to the rate and 0 at rate 0 |
| Valuation.ZeroRateZeroValue | app.js:222-226 | silver and old gold are worth nothing at rate 0 |
| Valuation.TwentyTwoKaratIsFullWeight | app.js:218 | a 22-karat item's purity-adjusted weight is its net weight |
| Valuation.ReferencePurityIsFullWeight | app.js:224 | old gold at 91.6 % counts at its net weight, below it at less, and always at a positive weight |
| Valuation.GoldEntry | app.js:385-397 | the gold form accepts exactly a named item with positive gross weight, stone weight in 0..gross and a non-negative making charge; the first failing check is the error; an accepted item carries the inputs and is valued at the rate |
| Valuation.SilverEntry | app.js:402-409 | accepted exactly with a name and a positive weight; the error names the failing check; the value is weight times rate |
| Valuation.OldGoldEntry | app.js:413-422 | accepted exactly with a name, a positive weight and purity in (0, 100]; valued at the gold rate |
| Valuation.PaymentEntry | app.js:426-430 | accepted exactly when the amount is a positive number; the payment keeps mode and reference |
| BillTotals.CalculateTotals | app.js:258-302 | no totals exactly when all three entry lists are empty; otherwise the rates, the percentages and the discount are the inputs, a missing number counting as 0; the other fields are stated by `BillTotals.TotalsSums` and `BillTotals.TotalsChain` |
| BillTotals.TotalsSums | app.js:268-280 | the gold subtotal, making charges, silver subtotal, old-gold total and total paid are each the `reduce` sum over their list |
| BillTotals.TotalsChain | app.js:269-281 | wastage is the subtotal times the percentage over 100; the total before GST adds gold, wastage, making and silver; GST is a percentage of that; the bill total adds it; net payable subtracts old gold and discount; the balance subtracts the total paid |
| BillTotals.BalanceDueClosedForm | app.js:268-281 | grand total is subtotal plus wastage, making and silver grossed up by GST; net payable subtracts old gold and discount; balance due subtracts payments and is negative exactly when payments exceed the net payable |
| BillTotals.WastageExcludesSilver | app.js:269-272 | changing the silver items changes neither the gold subtotal nor the wastage nor the making charges |
| BillTotals.AddingGoldItem | app.js:268-272 | one more gold item, whatever the other lists hold, raises the gold subtotal by its value and the making charges by its per-gram or flat charge |
| BillTotals.AddingPayment | app.js:279-281 | one more payment leaves the net payable unchanged and lowers the balance due by its amount |
| BillTotals.TotalsNonNegative | app.js:268-280 | for accepted entries and non-negative percentages every sum is non-negative, GST never lowers the total, and recorded payments make the total paid positive |
| BillTotals.SubtotalsNonNegative | app.js:268-280 | for gold entries of non-negative karat, the sums over accepted entries are non-negative, and the payments' sum is positive when there are payments |
| BillTotals.EntryValuesNonNegative | app.js:216-226 | every accepted entry, gold of non-negative karat, valued at a non-negative rate has a non-negative value and making charge |
| BillTotals.EntriesScaleWithRate | app.js:216-221 | entry by entry, revaluing at k times the gold rate gives k times the value |
| BillTotals.GoldSubtotalScalesWithRate | app.js:268 | after revaluation the gold subtotal is proportional to the gold rate |
| BillTotals.ZeroRateZeroGoldSubtotal | app.js:268 | at gold rate 0 the gold subtotal is 0 |
| BillTotals.NonNumericPercentIsZero | app.js:267 | a non-numeric wastage or GST percentage gives zero wastage or GST |
| BillTotals.WorkedExample | app.js:266-281 | a 10 g ring with 0.5 g stone at 6000 with a flat 500 making charge, 10 % wastage and 3 % GST gives 57000, 5700, 63200, 1896 and 65096 |
| BillTotals.NetPayableCanBeNegative | app.js:279-281 | a discount larger than the bill gives a negative net payable and balance due, not clamped |
| ThermalLayout.Spaces | app.js:564 | `' '.repeat(n)`: n spaces |
| ThermalLayout.Line | app.js:561-565 | `line(label, value)`; its layout is `ThermalLayout.LineLayout` |
| ThermalLayout.Center | app.js:566-570 | `center(text)`; its layout is `ThermalLayout.CenterLayout` |
| ThermalLayout.LineLayout | app.js:561-565 | `line`: label, then spaces, then the value ending at column 32 and a newline; a pair too long runs over with no space |
| ThermalLayout.CenterLayout | app.js:566-570 | `center`: an empty text is a bare newline; otherwise the left margin is half the free width rounded down, and none for 32 characters or more |
| ThermalLayout.WrapBody | app.js:571-575 | the 32-character chunks of a text, each followed by a newline; unwrapped by `ThermalLayout.WrapBodyUnwraps` |
| ThermalLayout.Wrap | app.js:571-575 | `wrap(text)`: a bare newline for an empty text, else the chunks; its layout is `ThermalLayout.WrapLayout` |
| ThermalLayout.WrapText | app.js:571-575 | the `wrap` loop returns the chunked text of the wrap specification |
| ThermalLayout.RemoveNewlines | app.js:573 | removing newlines never lengthens a text |
| ThermalLayout.RemoveNewlinesAppend | app.js:573 | removing newlines distributes over concatenation |
| ThermalLayout.RemoveNewlinesNone | app.js:573 | a text without newlines is unchanged by removing them |
| ThermalLayout.UnwrapRestoresText | app.js:571-575 | for a text without newlines of its own, including the empty text, wrapping only inserts newlines: removing them gives the text back |
| ThermalLayout.WrapBodyUnwraps | app.js:573 | the same for the chunks of a non-empty text |
| ThermalLayout.WrapLayout | app.js:571-575 | for a non-empty text without newlines of its own, the wrapped text has one newline per started 32-character chunk, at every 33rd position and at the end, so no printed line is longer than 32 characters |
| Receipt.StoredSource | app.js:556-559 | a reprint prints from the stored bill: its number, its stored date, customer, entries, payments and totals, and its shop name |
| Receipt.Header | app.js:577-580 | the centred shop name (JewelBill when empty), a rule, the centred title and a rule; stated by `Receipt.ReceiptFraming` |
| Receipt.CustomerBlock | app.js:581-585 | the date line, the customer name or N/A, the phone and wrapped address when present, and a rule; built by `Receipt.AppendCustomer` |
| Receipt.SummaryBlock | app.js:596-605 | the summary lines; `Receipt.SummaryFixedLines` places its three unconditional lines |
| Receipt.SummaryFixedLines | app.js:600-605 | for every totals value, the summary holds the "Total Before GST", "Bill Total" and "NET PAYABLE" lines, in that order and without overlap |
| Receipt.PaymentsBlock | app.js:606-609 | the payments lines with total paid and balance due; `Receipt.PaymentsBlockPresence` states when it is printed |
| Receipt.ThermalText | app.js:555-612 | the receipt: header, customer block with the formatted date, gold and silver sections, summary, payments and footer; `Receipt.ReceiptFraming` states its framing |
| Receipt.PrepareThermalText | app.js:555-612 | the receipt text built step by step is the specified receipt, with the source's date passed through the date format |
| Receipt.AppendCustomer | app.js:581-584 | appends the date line, the customer name or N/A, and the phone and wrapped address when present |
| Receipt.AppendGoldSection | app.js:586-591 | the gold loop appends the specified gold section |
| Receipt.AppendSilverSection | app.js:592-595 | the silver loop appends the specified silver section |
| Receipt.AppendSummary | app.js:596-605 | appends the specified summary block |
| Receipt.SubtotalText | app.js:596-599 | the subtotal lines printed only for positive amounts |
| Receipt.DeductionText | app.js:603-604 | the old-gold and discount lines printed only for positive amounts |
| Receipt.AppendAmount | app.js:601 | appends an amount line exactly when the amount is positive |
| Receipt.AppendPayments | app.js:606-609 | the payments loop appends the specified payments block |
| Receipt.GoldEntryInPlace | app.js:588-590 | the k-th gold item's text sits between the texts of the items before and after it |
| Receipt.LineNotEmpty | app.js:564 | a `line` is never empty |
| Receipt.AmountLinePresence | app.js:596-604 | an optional amount line is absent exactly when the amount is not positive |
| Receipt.GoldSectionShape | app.js:586-591 | the gold section is absent exactly when there are no gold items, else starts with its heading and ends with a rule |
| Receipt.SilverSectionShape | app.js:592-595 | the same for the silver section |
| Receipt.PaymentsBlockPresence | app.js:606-609 | payments are printed exactly for a stored bill with payments, under "Payments Received" |
| Receipt.ReceiptFraming | app.js:577-610 | every receipt starts with the centred shop name and title and ends with the centred thanks; the title is "DUPLICATE BILL (number)" for a stored bill and "ESTIMATE" otherwise |
| Billing.Placed | app.js:395-397 | a new entry is pushed at the end; an edited entry replaces the first entry with that id, and only that one; without a match nothing changes |
| Billing.SameCustomer | app.js:677 | the duplicate test: the same name ignoring case, or the same phone when both phones are non-empty |
| Billing.MatchingCustomer | app.js:677 | the first saved customer with the same lower-cased name or the same non-empty phone, none exactly when there is none |
| Billing.WithCustomer | app.js:676-681 | the customer is appended exactly when saving is ticked, the name is non-empty and no saved customer matches; otherwise the list is unchanged |
| Billing.WithCustomerKeepsDistinct | app.js:676-681 | saving a customer keeps the saved customers pairwise distinct |
| Billing.HistoryNumbersDistinct | app.js:128-132 | no two stored bills share a number |
| Billing.NextNumberIsFresh | app.js:128-132 | the next bill number is not yet in the history |
| Billing.DeletingLatestRollsBack | app.js:339-340 | deleting the latest bill rolls the counter back, so its number is issued again |
| Billing.DeletingOlderKeepsCounter | app.js:339-340 | deleting any other bill leaves the counter unchanged |
| Billing.DeleteKeepsNumbering | app.js:337-342 | deleting a stored bill keeps the history numbered under the new counter |
| Billing.CounterAfterDelete | app.js:339-340 | the counter after a delete: one less when the number parses to it, else unchanged; stated by `Billing.DeletingLatestRollsBack` and `Billing.DeletingOlderKeepsCounter` |
| Billing.RevaluedListsValid | app.js:215-228 | revaluing keeps every entry accepted and values it at the new rates |
| Billing.AppendKeepsNumbering | app.js:666-675 | storing the bill with the next number keeps the history numbered under the incremented counter |
| Billing.DeleteKeepsSession | app.js:337-342 | deleting a stored bill preserves the session invariant |
| Billing.GenerateKeepsSession | app.js:666-682 | generating a bill preserves the session invariant |
| Billing.ReprintOutcome | app.js:662-664 | a reprint prints the last stored bill; an empty history is the "no bill found" error |
| Billing.BillingSession.constructor | app.js:115-119 | the initial state: empty lists, zero rates and counter, not saved |
| Billing.BillingSession.SetRates | app.js:704-708 | both rates positive: the rates are set, every entry is revalued and the bill is marked unsaved; otherwise nothing changes |
| Billing.BillingSession.RecalculateAllItemValues | app.js:215-228 | every gold, silver and old-gold entry is revalued at the current rates, by the three loops below |
| Billing.BillingSession.RevalueGoldItems | app.js:216-221 | the gold loop revalues every gold entry in place at the current gold rate |
| Billing.BillingSession.RevalueSilverItems | app.js:222 | the silver loop revalues every silver entry in place at the current silver rate |
| Billing.BillingSession.RevalueOldGoldItems | app.js:223-227 | the old-gold loop revalues every old-gold entry in place at the current gold rate |
| Billing.BillingSession.SubmitGold | app.js:385-400 | the form's verdict; a rejected entry changes nothing; an accepted one is added or replaces the edited entry, and the bill becomes unsaved |
| Billing.BillingSession.SubmitSilver | app.js:402-411 | the same for silver |
| Billing.BillingSession.SubmitOldGold | app.js:413-424 | the same for old gold |
| Billing.BillingSession.SubmitPayment | app.js:426-431 | an accepted payment is appended and the bill becomes unsaved; a rejected one changes nothing |
| Billing.BillingSession.DeleteItem | app.js:455-463 | when confirmed, the entries with that id are filtered out of the chosen list only and the bill becomes unsaved; otherwise nothing changes |
| Billing.BillingSession.GenerateNextBillNumber | app.js:128-132 | the counter is incremented and the new value is formatted |
| Billing.BillingSession.DeleteBill | app.js:337-342 | when confirmed, the bill is filtered out of the history and the counter rolls back if it was the latest; the invariant holds afterwards for a stored number |
| Billing.BillingSession.GenerateBill | app.js:659-685 | no gold and no silver: nothing happens; already saved: a reprint of the last bill; otherwise the next-numbered bill is stored with the trimmed customer, copies of the lists and the computed totals, the customer may be saved, and the bill is marked saved |
| Billing.BillingSession.StoreNewBill | app.js:666-682 | stores the bill with the next number, updates the customers and marks the bill saved, keeping the invariant |
| Billing.BillingSession.StartNewBill | app.js:687-691 | empties the four entry lists and marks the bill unsaved; customers, history, rates and counter stay |
| Billing.BillingSession.EstimateSource | app.js:556-558 | the live estimate prints the current entries and customer, dated `now`, with no bill number and the computed totals; none when there is nothing to total |
| Billing.EstimateShowsNoPayments | app.js:606 | the live estimate never lists payments |

## Left out

- `server.js` and `sw.js`: serving files and the service worker cache are outside the billing logic.
- `triggerWiFiPrint` (app.js:617-656): sends the receipt over the network to a print bridge. Only the receipt text it sends is modelled.
- Local storage (`saveState`, `saveRates`, `loadState`, app.js:140-193) is not modelled. In particular, `calculateTotals` can take the discount from the saved state when the discount field is missing (app.js:278). Here the discount is simply an input of `Charges`.
- The DOM is not modelled: rendering, the A4 print, modals, the shop-details form, toasts and button labels.
- The customer search and the deletion of a saved customer (app.js:313-330) are not modelled.
- Locale formatting (`toLocaleString`, `toFixed`, `toLocaleDateString`) is uninterpreted. The receipt is proved correct for any formatting functions.
- Floating point is not modelled: amounts are exact reals, so rounding is not captured.
- Text lengths: JavaScript's `length` and `substring` (app.js:562-574) count UTF-16 code units, while a Dafny `string` counts Unicode scalar values. For characters outside the Basic Multilingual Plane, `line` and `center` pad differently from the model, and `wrap` can split a surrogate pair, which the model cannot.
- BillNumbers.ReplaceFirst, BillNumbers.ParseInt, ThermalLayout.Wrap and Billing.CounterAfterDelete carry no contract of their own: the lemmas named in their rows state their behaviour, and a contract on them slows every proof that unfolds them.
- `Strings.Lower` lower-cases ASCII letters only, whereas `toLowerCase` also maps other letters.
- `parseInt` is modelled for decimal digits after optional whitespace and sign. Radix prefixes are not modelled, and no bill number carries one.
- The karat field is not validated by the source (app.js:388), which accepts any integer. `BillTotals.TotalsNonNegative`, `BillTotals.SubtotalsNonNegative` and `BillTotals.EntryValuesNonNegative` therefore require karat ≥ 0. An empty karat field makes `parseInt` return NaN, and the item's value and every total become NaN. `karat` is an `int` here, so that case is not modelled.
- ThermalLayout.UnwrapRestoresText and ThermalLayout.WrapLayout are stated for texts without newlines. An address typed with its own line breaks is wrapped by the same loop, but these two lemmas say nothing about it.
- With no entries, the source's live estimate reads totals that do not exist and fails. `Billing.BillingSession.EstimateSource` returns none in that case.
- Entry ids come from `Date.now()` and are parameters here. Their uniqueness is not modelled: an edit replaces the first entry with the id, and a delete removes every entry with it.
- Billing.BillingSession.DeleteBill: the invariant is guaranteed only when the deleted number is in the history. Deleting an unknown number that parses to the counter rolls the counter back anyway, as the source does.
- Billing.BillingSession.GenerateNextBillNumber: states only the new counter and its formatted value. The parse round trip is `BillNumbers.FormatParseRoundTrip`.
- ThermalLayout.Line and ThermalLayout.Center carry no contract of their own. Their layout is stated by `ThermalLayout.LineLayout` and `ThermalLayout.CenterLayout`.
- Receipt.ThermalText, Receipt.Header, Receipt.CustomerBlock, Receipt.SummaryBlock and Receipt.PaymentsBlock are specification functions with no contract of their own. The lemmas named in their rows state their properties.
