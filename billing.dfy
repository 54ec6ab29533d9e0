/** The billing session: the module-level state of app.js (the four entry
    lists, the saved customers, the bill history, the rates, the bill
    counter and the "current bill saved" flag) and the handlers that change
    it. Form inputs, confirmation dialogs, fresh ids (`Date.now()`) and the
    date arrive as parameters. */
module Billing {
  import opened Lists
  import opened Strings
  import opened Valuation
  import opened BillTotals
  import opened BillNumbers
  import opened Records
  import opened Receipt

  /** The list an item deletion targets (`data-type` of the button). */
  datatype ListKind = GoldList | SilverList | OldGoldList | PaymentList

  /** What pressing "Generate" does. */
  datatype BillOutcome =
    | NoItems              // refused: no gold and no silver items
    | SavedBillMissing     // the bill counts as saved but the history is empty
    | Reprint(bill: Bill)  // the bill was already saved: the last one is printed again
    | Saved(bill: Bill)    // a new bill was numbered, stored and printed

  // ---- entry lists ----------------------------------------------------------

  predicate GoldListValid(s: seq<GoldItem>, goldRate: real)
  {
    forall i :: 0 <= i < |s| ==> GoldAccepted(s[i]) && GoldValuedAt(s[i], goldRate)
  }

  predicate SilverListValid(s: seq<SilverItem>, silverRate: real)
  {
    forall i :: 0 <= i < |s| ==> SilverAccepted(s[i]) && SilverValuedAt(s[i], silverRate)
  }

  predicate OldGoldListValid(s: seq<OldGoldItem>, goldRate: real)
  {
    forall i :: 0 <= i < |s| ==> OldGoldAccepted(s[i]) && OldGoldValuedAt(s[i], goldRate)
  }

  predicate PaymentsValid(s: seq<Payment>)
  {
    forall i :: 0 <= i < |s| ==> PaymentAccepted(s[i])
  }

  /** The id a submitted entry carries: the edited entry's id, or a fresh one. */
  function EntryId(editing: Option<nat>, freshId: nat): nat
  {
    if editing.Some? then editing.value else freshId
  }

  /** Position `j` holds the first entry carrying id `v`. */
  predicate FirstWithId<T>(s: seq<T>, id: T -> nat, v: nat, j: nat)
  {
    j < |s| && id(s[j]) == v && forall k :: 0 <= k < j ==> id(s[k]) != v
  }

  /** Where a submitted entry goes: a new entry is appended; an edited entry
      takes the place of the first entry with the edited id, and nothing
      changes when no entry has that id. */
  function Placed<T(==)>(s: seq<T>, editing: Option<nat>, x: T, id: T -> nat): (r: seq<T>)
    ensures editing.None? ==> r == s + [x]
    ensures editing.Some? ==> |r| == |s|
    ensures forall j :: 0 <= j < |r| ==> r[j] == x || (j < |s| && r[j] == s[j])
    ensures editing.Some? ==> forall j :: 0 <= j < |s| ==> (r[j] != s[j] ==> FirstWithId(s, id, editing.value, j))
    ensures editing.Some? ==> forall j :: 0 <= j < |s| ==> (FirstWithId(s, id, editing.value, j) ==> r[j] == x)
  {
    if editing.None? then s + [x]
    else match IndexOfKey(s, id, editing.value)
      case None => s
      case Some(k) => s[k := x]
  }

  // ---- customers ------------------------------------------------------------

  /** The duplicate test of bill generation: the same name ignoring case, or
      the same phone number when both have one. */
  predicate SameCustomer(c: Contact, cur: Contact)
  {
    Lower(c.name) == Lower(cur.name) || (c.phone != [] && cur.phone != [] && c.phone == cur.phone)
  }

  /** Every saved customer has a name and no two are duplicates of each other. */
  predicate CustomersDistinct(cs: seq<Customer>)
  {
    && (forall i :: 0 <= i < |cs| ==> cs[i].contact.name != [])
    && (forall i, j :: 0 <= i < j < |cs| ==> !SameCustomer(cs[i].contact, cs[j].contact))
  }

  /** `customers.findIndex(...)` with the duplicate test. */
  function MatchingCustomer(cs: seq<Customer>, cur: Contact): (r: Option<nat>)
    ensures r.Some? ==> r.value < |cs| && SameCustomer(cs[r.value].contact, cur)
    ensures r.Some? ==> forall j :: 0 <= j < r.value ==> !SameCustomer(cs[j].contact, cur)
    ensures r.None? <==> forall j :: 0 <= j < |cs| ==> !SameCustomer(cs[j].contact, cur)
    decreases |cs|
  {
    if cs == [] then None
    else if SameCustomer(cs[0].contact, cur) then Some(0)
    else match MatchingCustomer(cs[1..], cur)
      case None => None
      case Some(i) => Some(i + 1)
  }

  /** The saved customers after a bill for `cur` is generated. */
  function WithCustomer(cs: seq<Customer>, cur: Contact, saveCustomer: bool, id: nat): (r: seq<Customer>)
    ensures r == cs || r == cs + [Customer(id, cur)]
    ensures r != cs <==>
      saveCustomer && cur.name != [] && forall j :: 0 <= j < |cs| ==> !SameCustomer(cs[j].contact, cur)
  {
    if saveCustomer && cur.name != [] && MatchingCustomer(cs, cur).None? then cs + [Customer(id, cur)] else cs
  }

  lemma WithCustomerKeepsDistinct(cs: seq<Customer>, cur: Contact, saveCustomer: bool, id: nat)
    requires CustomersDistinct(cs)
    ensures CustomersDistinct(WithCustomer(cs, cur, saveCustomer, id))
  {
    var r := WithCustomer(cs, cur, saveCustomer, id);
    if r != cs {
      forall i, j | 0 <= i < j < |r|
        ensures !SameCustomer(r[i].contact, r[j].contact)
      {
        if j == |cs| {
          assert r[i] == cs[i] && r[j].contact == cur;
        } else {
          assert r[i] == cs[i] && r[j] == cs[j];
        }
      }
    }
  }

  // ---- bill history ---------------------------------------------------------

  /** The counter value a bill number encodes (0 when it encodes none). */
  function BillSeqNo(b: Bill): int
  {
    match ParseBillNumber(b.billNumber)
    case Some(n) => n
    case None => 0
  }

  /** A bill numbered by the counter at some value between 1 and `counter`. */
  predicate WellNumbered(b: Bill, counter: int)
  {
    1 <= BillSeqNo(b) <= counter && b.billNumber == FormatBillNumber(BillSeqNo(b))
  }

  /** The history invariant: every bill carries a formatted counter value not
      above the counter, in strictly increasing order. */
  predicate HistoryNumbered(h: seq<Bill>, counter: int)
  {
    && counter >= 0
    && (forall i :: 0 <= i < |h| ==> WellNumbered(h[i], counter))
    && Increasing(h, BillSeqNo)
  }

  /** No two bills in a well-numbered history share a number. */
  lemma HistoryNumbersDistinct(h: seq<Bill>, counter: int)
    requires HistoryNumbered(h, counter)
    ensures forall i, j :: 0 <= i < j < |h| ==> h[i].billNumber != h[j].billNumber
  {
    forall i, j | 0 <= i < j < |h|
      ensures h[i].billNumber != h[j].billNumber
    {
      assert BillSeqNo(h[i]) < BillSeqNo(h[j]);
    }
  }

  /** The number the counter hands out next belongs to no stored bill. */
  lemma NextNumberIsFresh(h: seq<Bill>, counter: int)
    requires HistoryNumbered(h, counter)
    ensures forall i :: 0 <= i < |h| ==> h[i].billNumber != FormatBillNumber(counter + 1)
  {
    forall i | 0 <= i < |h|
      ensures h[i].billNumber != FormatBillNumber(counter + 1)
    {
      var k := BillSeqNo(h[i]);
      assert WellNumbered(h[i], counter);
      if h[i].billNumber == FormatBillNumber(counter + 1) {
        assert FormatBillNumber(k) == FormatBillNumber(counter + 1);
        FormatInjective(k, counter + 1);
      }
    }
  }

  /** Some stored bill has this number. */
  predicate Stored(h: seq<Bill>, billNumber: string)
  {
    exists i :: 0 <= i < |h| && h[i].billNumber == billNumber
  }

  /** The counter after deleting a bill: rolled back exactly when the number
      parses to the counter's value. */
  function CounterAfterDelete(counter: int, billNumber: string): int
  {
    if ParseBillNumber(billNumber) == Some(counter) then counter - 1 else counter
  }

  /** Deleting the latest bill rolls the counter back, so its number is
      handed out again next. */
  lemma DeletingLatestRollsBack(counter: nat)
    requires counter >= 1
    ensures CounterAfterDelete(counter, FormatBillNumber(counter)) == counter - 1
    ensures FormatBillNumber(CounterAfterDelete(counter, FormatBillNumber(counter)) + 1) == FormatBillNumber(counter)
  {
    FormatParseRoundTrip(counter);
  }

  /** Deleting an older bill leaves the counter alone. */
  lemma DeletingOlderKeepsCounter(counter: nat, k: nat)
    requires k != counter
    ensures CounterAfterDelete(counter, FormatBillNumber(k)) == counter
  {
    FormatParseRoundTrip(k);
  }

  /** Deleting a stored bill keeps the history well numbered: a rolled-back
      counter is still at least every remaining bill's number. */
  lemma DeleteKeepsNumbering(h: seq<Bill>, counter: int, billNumber: string)
    requires HistoryNumbered(h, counter) && Stored(h, billNumber)
    ensures HistoryNumbered(Without(h, BillNumberOf, billNumber), CounterAfterDelete(counter, billNumber))
  {
    var r := Without(h, BillNumberOf, billNumber);
    var c := CounterAfterDelete(counter, billNumber);
    WithoutKeepsIncreasing(h, BillNumberOf, billNumber, BillSeqNo);
    var i0 :| 0 <= i0 < |h| && h[i0].billNumber == billNumber;
    var k0 := BillSeqNo(h[i0]);
    FormatParseRoundTrip(k0);
    assert ParseBillNumber(billNumber) == Some(k0);
    forall i | 0 <= i < |r|
      ensures WellNumbered(r[i], c)
    {
      assert r[i] in h && r[i].billNumber != billNumber;
      var j :| 0 <= j < |h| && h[j] == r[i];
      assert WellNumbered(h[j], counter);
      if c < counter {
        assert k0 == counter;
        assert BillSeqNo(r[i]) != counter;
      }
    }
  }

  /** Revaluing at new rates keeps every entry accepted and values it at
      the new rates. */
  lemma RevaluedListsValid(items: seq<GoldItem>, silverItems: seq<SilverItem>, oldGoldItems: seq<OldGoldItem>,
                           goldRate: real, silverRate: real, newGoldRate: real, newSilverRate: real)
    requires GoldListValid(items, goldRate) && SilverListValid(silverItems, silverRate)
    requires OldGoldListValid(oldGoldItems, goldRate)
    ensures GoldListValid(RevalueAllGold(items, newGoldRate), newGoldRate)
    ensures SilverListValid(RevalueAllSilver(silverItems, newSilverRate), newSilverRate)
    ensures OldGoldListValid(RevalueAllOldGold(oldGoldItems, newGoldRate), newGoldRate)
  {
    var g := RevalueAllGold(items, newGoldRate);
    forall i | 0 <= i < |g|
      ensures GoldAccepted(g[i])
    {
      assert GoldAccepted(items[i]);
    }
    var s := RevalueAllSilver(silverItems, newSilverRate);
    forall i | 0 <= i < |s|
      ensures SilverAccepted(s[i])
    {
      assert SilverAccepted(silverItems[i]);
    }
    var o := RevalueAllOldGold(oldGoldItems, newGoldRate);
    forall i | 0 <= i < |o|
      ensures OldGoldAccepted(o[i])
    {
      assert OldGoldAccepted(oldGoldItems[i]);
    }
  }

  /** Appending the bill numbered with the next counter value keeps the
      history well numbered under the incremented counter. */
  lemma AppendKeepsNumbering(h: seq<Bill>, counter: int, bill: Bill)
    requires HistoryNumbered(h, counter)
    requires bill.billNumber == FormatBillNumber(counter + 1)
    ensures HistoryNumbered(h + [bill], counter + 1)
  {
    FormatParseRoundTrip(counter + 1);
    assert BillSeqNo(bill) == counter + 1;
    var r := h + [bill];
    forall i | 0 <= i < |r|
      ensures WellNumbered(r[i], counter + 1)
    {
      if i < |h| {
        assert r[i] == h[i] && WellNumbered(h[i], counter);
      }
    }
    forall i, j | 0 <= i < j < |r|
      ensures BillSeqNo(r[i]) < BillSeqNo(r[j])
    {
      assert r[i] == h[i] && WellNumbered(h[i], counter);
      if j < |h| {
        assert r[j] == h[j];
      }
    }
  }

  /** The session invariant: every entry was accepted by its form and is
      valued at the current rates; saved customers are distinct; the
      history is well numbered. */
  predicate SessionValid(items: seq<GoldItem>, silverItems: seq<SilverItem>, oldGoldItems: seq<OldGoldItem>,
                         payments: seq<Payment>, customers: seq<Customer>, history: seq<Bill>,
                         goldRate: real, silverRate: real, counter: int)
  {
    && goldRate >= 0.0 && silverRate >= 0.0
    && GoldListValid(items, goldRate)
    && SilverListValid(silverItems, silverRate)
    && OldGoldListValid(oldGoldItems, goldRate)
    && PaymentsValid(payments)
    && CustomersDistinct(customers)
    && HistoryNumbered(history, counter)
  }

  /** Deleting a stored bill keeps the session invariant. */
  lemma DeleteKeepsSession(items: seq<GoldItem>, silverItems: seq<SilverItem>, oldGoldItems: seq<OldGoldItem>,
                           payments: seq<Payment>, customers: seq<Customer>, history: seq<Bill>,
                           goldRate: real, silverRate: real, counter: int, billNumber: string)
    requires SessionValid(items, silverItems, oldGoldItems, payments, customers, history, goldRate, silverRate, counter)
    requires Stored(history, billNumber)
    ensures SessionValid(items, silverItems, oldGoldItems, payments, customers,
                         Without(history, BillNumberOf, billNumber), goldRate, silverRate,
                         CounterAfterDelete(counter, billNumber))
  {
    DeleteKeepsNumbering(history, counter, billNumber);
  }

  /** Storing the bill numbered with the next counter value, and saving its
      customer when asked, keeps the session invariant. */
  lemma GenerateKeepsSession(items: seq<GoldItem>, silverItems: seq<SilverItem>, oldGoldItems: seq<OldGoldItem>,
                             payments: seq<Payment>, customers: seq<Customer>, history: seq<Bill>,
                             goldRate: real, silverRate: real, counter: int,
                             bill: Bill, cur: Contact, saveCustomer: bool, id: nat)
    requires SessionValid(items, silverItems, oldGoldItems, payments, customers, history, goldRate, silverRate, counter)
    requires bill.billNumber == FormatBillNumber(counter + 1)
    ensures SessionValid(items, silverItems, oldGoldItems, payments, WithCustomer(customers, cur, saveCustomer, id),
                         history + [bill], goldRate, silverRate, counter + 1)
  {
    AppendKeepsNumbering(history, counter, bill);
    WithCustomerKeepsDistinct(customers, cur, saveCustomer, id);
  }

  /** Generating again once the bill is saved: the last stored bill is
      printed again, and an empty history is an error. */
  function ReprintOutcome(history: seq<Bill>): (r: BillOutcome)
    ensures r.SavedBillMissing? <==> history == []
    ensures r.Reprint? ==> r.bill == history[|history| - 1] && r.bill in history
    ensures !r.NoItems? && !r.Saved?
  {
    if history == [] then SavedBillMissing else Reprint(history[|history| - 1])
  }

  /** The state of one billing session. */
  class BillingSession {
    var items: seq<GoldItem>
    var silverItems: seq<SilverItem>
    var oldGoldItems: seq<OldGoldItem>
    var paymentDetails: seq<Payment>
    var customers: seq<Customer>
    var billHistory: seq<Bill>
    var shopDetails: ShopDetails
    var goldRate22k: real
    var silverRate: real
    var lastBillNum: int
    var currentBillSaved: bool

    ghost predicate Valid()
      reads this
    {
      SessionValid(items, silverItems, oldGoldItems, paymentDetails, customers, billHistory,
                   goldRate22k, silverRate, lastBillNum)
    }

    /** The state declared at app.js:115-119 before anything is loaded. */
    constructor(shop: ShopDetails)
      ensures Valid()
      ensures items == [] && silverItems == [] && oldGoldItems == [] && paymentDetails == []
      ensures customers == [] && billHistory == [] && shopDetails == shop
      ensures goldRate22k == 0.0 && silverRate == 0.0 && lastBillNum == 0 && !currentBillSaved
    {
      items, silverItems, oldGoldItems, paymentDetails := [], [], [], [];
      customers, billHistory, shopDetails := [], [], shop;
      goldRate22k, silverRate, lastBillNum, currentBillSaved := 0.0, 0.0, 0, false;
    }

    /** "Set rates": both rates must be positive numbers; then every entry
        is revalued and the bill counts as changed. */
    method SetRates(goldIn: Option<real>, silverIn: Option<real>)
      modifies this`goldRate22k, this`silverRate, this`items, this`silverItems, this`oldGoldItems,
               this`currentBillSaved
      requires Valid()
      ensures Valid()
      ensures goldIn.Some? && goldIn.value > 0.0 && silverIn.Some? && silverIn.value > 0.0 ==>
        && goldRate22k == goldIn.value && silverRate == silverIn.value
        && items == RevalueAllGold(old(items), goldRate22k)
        && silverItems == RevalueAllSilver(old(silverItems), silverRate)
        && oldGoldItems == RevalueAllOldGold(old(oldGoldItems), goldRate22k)
        && !currentBillSaved
      ensures !(goldIn.Some? && goldIn.value > 0.0 && silverIn.Some? && silverIn.value > 0.0) ==>
        unchanged(this)
    {
      if goldIn.Some? && goldIn.value > 0.0 && silverIn.Some? && silverIn.value > 0.0 {
        goldRate22k, silverRate := goldIn.value, silverIn.value;
        RecalculateAllItemValues();
        currentBillSaved := false;
        RevaluedListsValid(old(items), old(silverItems), old(oldGoldItems), old(goldRate22k), old(silverRate),
                           goldRate22k, silverRate);
      }
    }

    /** `recalculateAllItemValues`: the derived fields of every entry are
        recomputed in place from its entered fields and the current rates. */
    method RecalculateAllItemValues()
      modifies this`items, this`silverItems, this`oldGoldItems
      ensures items == RevalueAllGold(old(items), goldRate22k)
      ensures silverItems == RevalueAllSilver(old(silverItems), silverRate)
      ensures oldGoldItems == RevalueAllOldGold(old(oldGoldItems), goldRate22k)
    {
      RevalueGoldItems();
      RevalueSilverItems();
      RevalueOldGoldItems();
    }

    /** The gold `forEach`: net weight, purity-adjusted weight and value of
        each gold entry, in place. */
    method RevalueGoldItems()
      modifies this`items
      ensures items == RevalueAllGold(old(items), goldRate22k)
    {
      var i := 0;
      while i < |items|
        invariant 0 <= i <= |items| == |old(items)|
        invariant forall j :: 0 <= j < i ==> items[j] == RevalueGold(old(items)[j], goldRate22k)
        invariant forall j :: i <= j < |items| ==> items[j] == old(items)[j]
      {
        var item := items[i];
        var netWeight := item.grossWeight - item.stoneWeight;
        var purityAdjustedWeight := netWeight * (item.karat as real / ReferenceKarat);
        items := items[i := item.(netWeight := netWeight, purityAdjustedWeight := purityAdjustedWeight,
                                  goldValue := purityAdjustedWeight * goldRate22k)];
        i := i + 1;
      }
    }

    /** The silver `forEach`: each silver entry's value, in place. */
    method RevalueSilverItems()
      modifies this`silverItems
      ensures silverItems == RevalueAllSilver(old(silverItems), silverRate)
    {
      var i := 0;
      while i < |silverItems|
        invariant 0 <= i <= |silverItems| == |old(silverItems)|
        invariant forall j :: 0 <= j < i ==> silverItems[j] == RevalueSilver(old(silverItems)[j], silverRate)
        invariant forall j :: i <= j < |silverItems| ==> silverItems[j] == old(silverItems)[j]
      {
        var item := silverItems[i];
        silverItems := silverItems[i := item.(value := item.weight * silverRate)];
        i := i + 1;
      }
    }

    /** The old-gold `forEach`: purity-adjusted weight and value of each old
        gold entry, in place. */
    method RevalueOldGoldItems()
      modifies this`oldGoldItems
      ensures oldGoldItems == RevalueAllOldGold(old(oldGoldItems), goldRate22k)
    {
      var i := 0;
      while i < |oldGoldItems|
        invariant 0 <= i <= |oldGoldItems| == |old(oldGoldItems)|
        invariant forall j :: 0 <= j < i ==> oldGoldItems[j] == RevalueOldGold(old(oldGoldItems)[j], goldRate22k)
        invariant forall j :: i <= j < |oldGoldItems| ==> oldGoldItems[j] == old(oldGoldItems)[j]
      {
        var item := oldGoldItems[i];
        var purityAdjustedWeight := item.netWeight * (item.purityPercent / ReferencePurity);
        oldGoldItems := oldGoldItems[i := item.(purityAdjustedWeight := purityAdjustedWeight,
                                                goldValue := purityAdjustedWeight * goldRate22k)];
        i := i + 1;
      }
    }

    /** The gold form: a rejected entry changes nothing; an accepted one is
        appended, or replaces the entry being edited. */
    method SubmitGold(editing: Option<nat>, freshId: nat, name: string, gross: Option<real>,
                      stone: Option<real>, karat: int, kind: MakingKind, making: Option<real>)
      returns (entry: Result<GoldItem>)
      modifies this`items, this`currentBillSaved
      requires Valid()
      ensures Valid()
      ensures entry == GoldEntry(EntryId(editing, freshId), name, gross, stone, karat, kind, making, goldRate22k)
      ensures entry.Err? ==> items == old(items) && currentBillSaved == old(currentBillSaved)
      ensures entry.Ok? ==> items == Placed(old(items), editing, entry.value, GoldId) && !currentBillSaved
    {
      entry := GoldEntry(EntryId(editing, freshId), name, gross, stone, karat, kind, making, goldRate22k);
      if entry.Ok? {
        if editing.Some? {
          var index := IndexOfKey(items, GoldId, editing.value);
          if index.Some? {
            items := items[index.value := entry.value];
          }
        } else {
          items := items + [entry.value];
        }
        currentBillSaved := false;
      }
    }

    /** The silver form. */
    method SubmitSilver(editing: Option<nat>, freshId: nat, name: string, weight: Option<real>)
      returns (entry: Result<SilverItem>)
      modifies this`silverItems, this`currentBillSaved
      requires Valid()
      ensures Valid()
      ensures entry == SilverEntry(EntryId(editing, freshId), name, weight, silverRate)
      ensures entry.Err? ==> silverItems == old(silverItems) && currentBillSaved == old(currentBillSaved)
      ensures entry.Ok? ==> silverItems == Placed(old(silverItems), editing, entry.value, SilverId) && !currentBillSaved
    {
      entry := SilverEntry(EntryId(editing, freshId), name, weight, silverRate);
      if entry.Ok? {
        if editing.Some? {
          var index := IndexOfKey(silverItems, SilverId, editing.value);
          if index.Some? {
            silverItems := silverItems[index.value := entry.value];
          }
        } else {
          silverItems := silverItems + [entry.value];
        }
        currentBillSaved := false;
      }
    }

    /** The old-gold form. */
    method SubmitOldGold(editing: Option<nat>, freshId: nat, name: string, netWeight: Option<real>,
                         purity: Option<real>)
      returns (entry: Result<OldGoldItem>)
      modifies this`oldGoldItems, this`currentBillSaved
      requires Valid()
      ensures Valid()
      ensures entry == OldGoldEntry(EntryId(editing, freshId), name, netWeight, purity, goldRate22k)
      ensures entry.Err? ==> oldGoldItems == old(oldGoldItems) && currentBillSaved == old(currentBillSaved)
      ensures entry.Ok? ==>
        oldGoldItems == Placed(old(oldGoldItems), editing, entry.value, OldGoldId) && !currentBillSaved
    {
      entry := OldGoldEntry(EntryId(editing, freshId), name, netWeight, purity, goldRate22k);
      if entry.Ok? {
        if editing.Some? {
          var index := IndexOfKey(oldGoldItems, OldGoldId, editing.value);
          if index.Some? {
            oldGoldItems := oldGoldItems[index.value := entry.value];
          }
        } else {
          oldGoldItems := oldGoldItems + [entry.value];
        }
        currentBillSaved := false;
      }
    }

    /** The payment form: payments are only ever appended. */
    method SubmitPayment(freshId: nat, mode: string, amount: Option<real>, reference: string)
      returns (entry: Result<Payment>)
      modifies this`paymentDetails, this`currentBillSaved
      requires Valid()
      ensures Valid()
      ensures entry == PaymentEntry(freshId, mode, amount, reference)
      ensures entry.Err? ==> paymentDetails == old(paymentDetails) && currentBillSaved == old(currentBillSaved)
      ensures entry.Ok? ==> paymentDetails == old(paymentDetails) + [entry.value] && !currentBillSaved
    {
      entry := PaymentEntry(freshId, mode, amount, reference);
      if entry.Ok? {
        paymentDetails := paymentDetails + [entry.value];
        currentBillSaved := false;
      }
    }

    /** `handleItemDelete`: after confirmation, every entry of the chosen
        list with that id is dropped; the other lists are kept. */
    method DeleteItem(kind: ListKind, id: nat, confirmed: bool)
      modifies this`items, this`silverItems, this`oldGoldItems, this`paymentDetails, this`currentBillSaved
      requires Valid()
      ensures Valid()
      ensures !confirmed ==> unchanged(this)
      ensures confirmed ==>
        && items == (if kind == GoldList then Without(old(items), GoldId, id) else old(items))
        && silverItems == (if kind == SilverList then Without(old(silverItems), SilverId, id) else old(silverItems))
        && oldGoldItems == (if kind == OldGoldList then Without(old(oldGoldItems), OldGoldId, id) else old(oldGoldItems))
        && paymentDetails == (if kind == PaymentList then Without(old(paymentDetails), PaymentId, id) else old(paymentDetails))
        && !currentBillSaved
    {
      if !confirmed {
        return;
      }
      match kind {
        case GoldList => items := Without(items, GoldId, id);
        case SilverList => silverItems := Without(silverItems, SilverId, id);
        case OldGoldList => oldGoldItems := Without(oldGoldItems, OldGoldId, id);
        case PaymentList => paymentDetails := Without(paymentDetails, PaymentId, id);
      }
      currentBillSaved := false;
    }

    /** `generateNextBillNumber`: the counter goes up by one and is formatted. */
    method GenerateNextBillNumber() returns (billNumber: string)
      modifies this`lastBillNum
      requires lastBillNum >= 0
      ensures lastBillNum == old(lastBillNum) + 1
      ensures billNumber == FormatBillNumber(lastBillNum)
    {
      lastBillNum := lastBillNum + 1;
      billNumber := FormatBillNumber(lastBillNum);
    }

    /** `handleDeleteBill`: after confirmation, the counter rolls back when
        the number parses to its value, and every bill with that number
        leaves the history. */
    method DeleteBill(billNumber: string, confirmed: bool)
      modifies this`lastBillNum, this`billHistory
      requires Valid()
      ensures Stored(old(billHistory), billNumber) ==> Valid()
      ensures !confirmed ==> unchanged(this)
      ensures confirmed ==>
        && lastBillNum == CounterAfterDelete(old(lastBillNum), billNumber)
        && billHistory == Without(old(billHistory), BillNumberOf, billNumber)
    {
      if !confirmed {
        return;
      }
      var numPart := ParseBillNumber(billNumber);
      var counter := lastBillNum;
      if numPart == Some(lastBillNum) {
        counter := lastBillNum - 1;
      }
      var history := Without(billHistory, BillNumberOf, billNumber);
      if Stored(billHistory, billNumber) {
        DeleteKeepsSession(items, silverItems, oldGoldItems, paymentDetails, customers, billHistory,
                           goldRate22k, silverRate, lastBillNum, billNumber);
      }
      lastBillNum, billHistory := counter, history;
    }

    /** `handleGenerateBill`: refused without gold and silver entries; a
        bill already saved is printed again from the history; otherwise a new
        bill is numbered, stored and its customer saved when asked. */
    method GenerateBill(name: string, phone: string, address: string, saveCustomer: bool,
                        date: string, customerId: nat, charges: Charges)
      returns (outcome: BillOutcome)
      modifies this`lastBillNum, this`billHistory, this`customers, this`currentBillSaved
      requires Valid()
      ensures Valid()
      ensures items == [] && silverItems == [] ==> outcome == NoItems && unchanged(this)
      ensures (items != [] || silverItems != []) && old(currentBillSaved) ==>
        && unchanged(this)
        && outcome == ReprintOutcome(billHistory)
      ensures (items != [] || silverItems != []) && !old(currentBillSaved) ==>
        var contact := Contact(Trim(name), Trim(phone), Trim(address));
        && outcome.Saved?
        && lastBillNum == old(lastBillNum) + 1
        && billHistory == old(billHistory) + [outcome.bill]
        && outcome.bill == Bill(FormatBillNumber(lastBillNum), date, contact,
                                items, silverItems, oldGoldItems, paymentDetails,
                                CalculateTotals(items, silverItems, oldGoldItems, paymentDetails,
                                                goldRate22k, silverRate, charges).value,
                                shopDetails)
        && customers == WithCustomer(old(customers), contact, saveCustomer, customerId)
        && currentBillSaved
    {
      if items == [] && silverItems == [] {
        return NoItems;
      }
      if currentBillSaved {
        if |billHistory| > 0 {
          outcome := Reprint(billHistory[|billHistory| - 1]);
        } else {
          outcome := SavedBillMissing;
        }
        return;
      }
      var currentCustomer := Contact(Trim(name), Trim(phone), Trim(address));
      var billTotals := CalculateTotals(items, silverItems, oldGoldItems, paymentDetails, goldRate22k, silverRate, charges);
      assert billTotals.Some?;
      var bill := StoreNewBill(currentCustomer, saveCustomer, date, customerId, billTotals.value);
      outcome := Saved(bill);
    }

    /** The storing half of bill generation: the next number, a snapshot of
        the current entries appended to the history, the customer saved
        unless a duplicate is already saved, and the saved flag set. */
    method StoreNewBill(currentCustomer: Contact, saveCustomer: bool, date: string, customerId: nat, totals: Totals)
      returns (bill: Bill)
      modifies this`lastBillNum, this`billHistory, this`customers, this`currentBillSaved
      requires Valid()
      ensures Valid()
      ensures lastBillNum == old(lastBillNum) + 1
      ensures bill == Bill(FormatBillNumber(lastBillNum), date, currentCustomer,
                           items, silverItems, oldGoldItems, paymentDetails, totals, shopDetails)
      ensures billHistory == old(billHistory) + [bill]
      ensures customers == WithCustomer(old(customers), currentCustomer, saveCustomer, customerId)
      ensures currentBillSaved
    {
      var saved := customers;
      if saveCustomer && currentCustomer.name != [] {
        var existing := MatchingCustomer(customers, currentCustomer);
        if existing.None? {
          saved := customers + [Customer(customerId, currentCustomer)];
        }
      }
      assert saved == WithCustomer(customers, currentCustomer, saveCustomer, customerId);
      var counter := lastBillNum;
      var billNumber := GenerateNextBillNumber();
      bill := Bill(billNumber, date, currentCustomer, items, silverItems, oldGoldItems, paymentDetails,
                   totals, shopDetails);
      GenerateKeepsSession(items, silverItems, oldGoldItems, paymentDetails, customers, billHistory,
                           goldRate22k, silverRate, counter, bill, currentCustomer, saveCustomer, customerId);
      billHistory, customers := billHistory + [bill], saved;
      currentBillSaved := true;
    }

    /** `resetFormLogic`: the entry lists are emptied for the next bill;
        customers, history, rates and the counter are kept. */
    method StartNewBill()
      modifies this`items, this`silverItems, this`oldGoldItems, this`paymentDetails, this`currentBillSaved
      requires Valid()
      ensures Valid()
      ensures items == [] && silverItems == [] && oldGoldItems == [] && paymentDetails == []
      ensures !currentBillSaved
    {
      items, silverItems, oldGoldItems, paymentDetails := [], [], [], [];
      currentBillSaved := false;
    }

    /** What the live estimate (`prepareThermalText(null)`) prints from: the
        current entries, the customer fields as typed, the totals and the
        current time `now`; none when there are no totals to print. */
    function EstimateSource(customer: Contact, charges: Charges, now: string): (r: Option<Source>)
      reads this
      ensures r.None? <==> items == [] && silverItems == [] && oldGoldItems == []
      ensures r.Some? ==>
        && r.value.billNumber.None? && r.value.date == now
        && r.value.customer == customer && r.value.shopName == shopDetails.name
        && r.value.items == items && r.value.silverItems == silverItems
        && Some(r.value.totals)
           == CalculateTotals(items, silverItems, oldGoldItems, paymentDetails, goldRate22k, silverRate, charges)
    {
      match CalculateTotals(items, silverItems, oldGoldItems, paymentDetails, goldRate22k, silverRate, charges)
      case None => None
      case Some(t) => Some(Source(None, now, customer, items, silverItems, paymentDetails, t, shopDetails.name))
    }
  }

  /** The live estimate never lists payments, whatever has been paid. */
  lemma EstimateShowsNoPayments(session: BillingSession, customer: Contact, charges: Charges, now: string, fmt: Formats)
    requires session.EstimateSource(customer, charges, now).Some?
    ensures PaymentsBlock(session.EstimateSource(customer, charges, now).value, fmt) == []
  {
    PaymentsBlockPresence(session.EstimateSource(customer, charges, now).value, fmt);
  }
}
