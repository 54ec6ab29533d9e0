/** The totals chain of `calculateTotals` (app.js): gold subtotal, wastage,
    making charges, silver subtotal, total before GST, GST, grand total, old
    gold, discount, net payable, payments and balance due, over exact reals. */
module BillTotals {
  import opened Lists
  import opened Valuation

  /** The object `calculateTotals(true)` returns. */
  datatype Totals = Totals(
    goldRate22k: real, silverRate: real,
    goldSubtotal: real, wastageValue: real, goldMakingCharges: real, silverSubtotal: real,
    totalBeforeGst: real, gstValue: real, grandTotal: real,
    oldGoldTotal: real, discount: real, netPayable: real,
    totalPaid: real, balanceDue: real,
    wastagePercent: real, gstPercent: real)

  /** The wastage %, GST % and discount fields as parsed; None is text that
      did not parse as a number. */
  datatype Charges = Charges(wastage: Option<real>, gst: Option<real>, discount: Option<real>)

  /** No totals exist for a bill without gold, silver or old-gold entries;
      otherwise the chain is computed in its fixed order. Non-numeric
      percentages and discount count as 0. */
  function CalculateTotals(items: seq<GoldItem>, silverItems: seq<SilverItem>, oldGoldItems: seq<OldGoldItem>,
                           payments: seq<Payment>, goldRate: real, silverRate: real, charges: Charges): (r: Option<Totals>)
    ensures r.None? <==> items == [] && silverItems == [] && oldGoldItems == []
    ensures r.Some? ==>
      && r.value.goldRate22k == goldRate && r.value.silverRate == silverRate
      && r.value.wastagePercent == OrZero(charges.wastage)
      && r.value.gstPercent == OrZero(charges.gst)
      && r.value.discount == OrZero(charges.discount)
  {
    if |items| + |silverItems| + |oldGoldItems| == 0 then None
    else
      var wastagePercent := OrZero(charges.wastage);
      var gstPercent := OrZero(charges.gst);
      var goldSubtotal := SumBy(items, GoldValueOf);
      var wastageValue := (goldSubtotal * wastagePercent) / 100.0;
      var goldMakingCharges := SumBy(items, MakingChargeOf);
      var silverSubtotal := SumBy(silverItems, SilverValueOf);
      var totalBeforeGst := goldSubtotal + wastageValue + goldMakingCharges + silverSubtotal;
      var gstValue := (totalBeforeGst * gstPercent) / 100.0;
      var grandTotal := totalBeforeGst + gstValue;
      var oldGoldTotal := SumBy(oldGoldItems, OldGoldValueOf);
      var discount := OrZero(charges.discount);
      var netPayable := grandTotal - oldGoldTotal - discount;
      var totalPaid := SumBy(payments, AmountOf);
      var balanceDue := netPayable - totalPaid;
      Some(Totals(goldRate, silverRate, goldSubtotal, wastageValue, goldMakingCharges, silverSubtotal,
                  totalBeforeGst, gstValue, grandTotal, oldGoldTotal, discount, netPayable,
                  totalPaid, balanceDue, wastagePercent, gstPercent))
  }

  /** `x` with `percent` percent added on top. */
  function GrossedUp(x: real, percent: real): real
  {
    x * (1.0 + percent / 100.0)
  }

  /** The bill total in one formula over the entries: the gold value grossed
      up by wastage, plus making charges and silver, all grossed up by GST. */
  function ExpectedGrandTotal(items: seq<GoldItem>, silverItems: seq<SilverItem>, charges: Charges): real
  {
    GrossedUp(GrossedUp(SumBy(items, GoldValueOf), OrZero(charges.wastage))
                + SumBy(items, MakingChargeOf) + SumBy(silverItems, SilverValueOf),
              OrZero(charges.gst))
  }

  /** The balance in one formula: the bill total less old gold, discount and
      payments. Nothing is clamped at zero. */
  function ExpectedBalanceDue(items: seq<GoldItem>, silverItems: seq<SilverItem>, oldGoldItems: seq<OldGoldItem>,
                              payments: seq<Payment>, charges: Charges): real
  {
    ExpectedGrandTotal(items, silverItems, charges) - SumBy(oldGoldItems, OldGoldValueOf)
      - OrZero(charges.discount) - SumBy(payments, AmountOf)
  }

  /** The step-by-step chain agrees with the one-formula totals, and the
      balance is negative exactly when more has been paid than is payable. */
  lemma BalanceDueClosedForm(items: seq<GoldItem>, silverItems: seq<SilverItem>, oldGoldItems: seq<OldGoldItem>,
                             payments: seq<Payment>, goldRate: real, silverRate: real, charges: Charges)
    requires items != [] || silverItems != [] || oldGoldItems != []
    ensures var t := CalculateTotals(items, silverItems, oldGoldItems, payments, goldRate, silverRate, charges).value;
      && t.grandTotal == ExpectedGrandTotal(items, silverItems, charges)
      && t.netPayable == t.grandTotal - SumBy(oldGoldItems, OldGoldValueOf) - OrZero(charges.discount)
      && t.balanceDue == ExpectedBalanceDue(items, silverItems, oldGoldItems, payments, charges)
      && (t.balanceDue < 0.0 <==> t.netPayable < t.totalPaid)
  {
    var t := CalculateTotals(items, silverItems, oldGoldItems, payments, goldRate, silverRate, charges).value;
    TotalsSums(items, silverItems, oldGoldItems, payments, goldRate, silverRate, charges);
    TotalsChain(items, silverItems, oldGoldItems, payments, goldRate, silverRate, charges);
    GrossUp(t.goldSubtotal, t.wastagePercent);
    assert t.goldSubtotal + t.wastageValue == GrossedUp(t.goldSubtotal, t.wastagePercent);
    GrossUp(t.totalBeforeGst, t.gstPercent);
    assert t.grandTotal == GrossedUp(t.totalBeforeGst, t.gstPercent);
  }

  /** The five sums behind the totals: gold value, making charges, silver
      value, old-gold value and payments, each summed over its list. */
  lemma TotalsSums(items: seq<GoldItem>, silverItems: seq<SilverItem>, oldGoldItems: seq<OldGoldItem>,
                   payments: seq<Payment>, goldRate: real, silverRate: real, charges: Charges)
    requires items != [] || silverItems != [] || oldGoldItems != []
    ensures var t := CalculateTotals(items, silverItems, oldGoldItems, payments, goldRate, silverRate, charges).value;
      && t.goldSubtotal == SumBy(items, GoldValueOf)
      && t.goldMakingCharges == SumBy(items, MakingChargeOf)
      && t.silverSubtotal == SumBy(silverItems, SilverValueOf)
      && t.oldGoldTotal == SumBy(oldGoldItems, OldGoldValueOf)
      && t.totalPaid == SumBy(payments, AmountOf)
  {
  }

  /** The chain from the sums to the balance: wastage on the gold subtotal,
      total before GST, GST on that total, bill total, net payable and
      balance, each from the fields before it. */
  lemma TotalsChain(items: seq<GoldItem>, silverItems: seq<SilverItem>, oldGoldItems: seq<OldGoldItem>,
                    payments: seq<Payment>, goldRate: real, silverRate: real, charges: Charges)
    requires items != [] || silverItems != [] || oldGoldItems != []
    ensures var t := CalculateTotals(items, silverItems, oldGoldItems, payments, goldRate, silverRate, charges).value;
      && t.wastageValue == t.goldSubtotal * t.wastagePercent / 100.0
      && t.totalBeforeGst == t.goldSubtotal + t.wastageValue + t.goldMakingCharges + t.silverSubtotal
      && t.gstValue == t.totalBeforeGst * t.gstPercent / 100.0
      && t.grandTotal == t.totalBeforeGst + t.gstValue
      && t.netPayable == t.grandTotal - t.oldGoldTotal - t.discount
      && t.balanceDue == t.netPayable - t.totalPaid
  {
  }

  /** Adding `p` percent of an amount to it multiplies it by 1 + p/100. */
  lemma GrossUp(x: real, p: real)
    ensures x + (x * p) / 100.0 == GrossedUp(x, p)
  {
  }

  /** Wastage is charged on gold only: the silver entries never change the
      gold subtotal, the wastage or the making charges. */
  lemma WastageExcludesSilver(items: seq<GoldItem>, silver1: seq<SilverItem>, silver2: seq<SilverItem>,
                              oldGoldItems: seq<OldGoldItem>, payments: seq<Payment>,
                              goldRate: real, silverRate: real, charges: Charges)
    requires items != [] || oldGoldItems != []
    ensures var t1 := CalculateTotals(items, silver1, oldGoldItems, payments, goldRate, silverRate, charges);
      var t2 := CalculateTotals(items, silver2, oldGoldItems, payments, goldRate, silverRate, charges);
      && t1.Some? && t2.Some?
      && t1.value.goldSubtotal == t2.value.goldSubtotal
      && t1.value.wastageValue == t2.value.wastageValue
      && t1.value.goldMakingCharges == t2.value.goldMakingCharges
      && t2.value.totalBeforeGst - t1.value.totalBeforeGst
         == SumBy(silver2, SilverValueOf) - SumBy(silver1, SilverValueOf)
  {
  }

  /** Adding a gold item raises the gold subtotal by its value and the making
      charges by its charge (per gram of gross weight, or flat). */
  lemma AddingGoldItem(items: seq<GoldItem>, g: GoldItem, silverItems: seq<SilverItem>,
                       oldGoldItems: seq<OldGoldItem>, payments: seq<Payment>,
                       goldRate: real, silverRate: real, charges: Charges)
    requires items != [] || silverItems != [] || oldGoldItems != []
    ensures var before := CalculateTotals(items, silverItems, oldGoldItems, payments, goldRate, silverRate, charges).value;
      var after := CalculateTotals(items + [g], silverItems, oldGoldItems, payments, goldRate, silverRate, charges).value;
      && after.goldSubtotal == before.goldSubtotal + g.goldValue
      && after.goldMakingCharges == before.goldMakingCharges
           + (if g.makingCharge.kind == PerGram then g.grossWeight * g.makingCharge.value else g.makingCharge.value)
      && after.silverSubtotal == before.silverSubtotal
  {
    SumByAppend(items, [g], GoldValueOf);
    SumByAppend(items, [g], MakingChargeOf);
    assert SumBy([g], GoldValueOf) == g.goldValue;
    assert SumBy([g], MakingChargeOf) == MakingChargeOf(g);
  }

  /** A payment lowers the balance due by its amount and leaves everything up
      to the net payable unchanged. */
  lemma AddingPayment(items: seq<GoldItem>, silverItems: seq<SilverItem>, oldGoldItems: seq<OldGoldItem>,
                      payments: seq<Payment>, p: Payment, goldRate: real, silverRate: real, charges: Charges)
    requires items != [] || silverItems != [] || oldGoldItems != []
    ensures var before := CalculateTotals(items, silverItems, oldGoldItems, payments, goldRate, silverRate, charges).value;
      var after := CalculateTotals(items, silverItems, oldGoldItems, payments + [p], goldRate, silverRate, charges).value;
      && after.netPayable == before.netPayable
      && after.totalPaid == before.totalPaid + p.amount
      && after.balanceDue == before.balanceDue - p.amount
  {
    SumByAppend(payments, [p], AmountOf);
    assert SumBy([p], AmountOf) == p.amount;
  }

  /** With accepted entries, non-negative rates and non-negative percentages,
      every amount up to the grand total is non-negative, GST never lowers the
      total, and the old-gold and payment totals are non-negative. */
  lemma TotalsNonNegative(items: seq<GoldItem>, silverItems: seq<SilverItem>, oldGoldItems: seq<OldGoldItem>,
                          payments: seq<Payment>, goldRate: real, silverRate: real, charges: Charges)
    requires items != [] || silverItems != [] || oldGoldItems != []
    requires goldRate >= 0.0 && silverRate >= 0.0
    requires OrZero(charges.wastage) >= 0.0 && OrZero(charges.gst) >= 0.0
    requires forall i :: 0 <= i < |items| ==> GoldAccepted(items[i]) && GoldValuedAt(items[i], goldRate)
    requires forall i :: 0 <= i < |items| ==> items[i].karat >= 0
    requires forall i :: 0 <= i < |silverItems| ==> SilverAccepted(silverItems[i]) && SilverValuedAt(silverItems[i], silverRate)
    requires forall i :: 0 <= i < |oldGoldItems| ==> OldGoldAccepted(oldGoldItems[i]) && OldGoldValuedAt(oldGoldItems[i], goldRate)
    requires forall i :: 0 <= i < |payments| ==> PaymentAccepted(payments[i])
    ensures var t := CalculateTotals(items, silverItems, oldGoldItems, payments, goldRate, silverRate, charges).value;
      && t.goldSubtotal >= 0.0 && t.wastageValue >= 0.0 && t.goldMakingCharges >= 0.0
      && t.silverSubtotal >= 0.0 && t.totalBeforeGst >= 0.0 && t.gstValue >= 0.0
      && t.grandTotal >= t.totalBeforeGst
      && t.oldGoldTotal >= 0.0 && t.totalPaid >= 0.0
      && (payments != [] ==> t.totalPaid > 0.0)
  {
    SubtotalsNonNegative(items, silverItems, oldGoldItems, payments, goldRate, silverRate);
    var t := CalculateTotals(items, silverItems, oldGoldItems, payments, goldRate, silverRate, charges).value;
    NonNegativeProduct(t.goldSubtotal, t.wastagePercent);
    NonNegativeProduct(t.totalBeforeGst, t.gstPercent);
  }

  /** The sums the totals are built from are non-negative for accepted entries. */
  lemma SubtotalsNonNegative(items: seq<GoldItem>, silverItems: seq<SilverItem>, oldGoldItems: seq<OldGoldItem>,
                             payments: seq<Payment>, goldRate: real, silverRate: real)
    requires goldRate >= 0.0 && silverRate >= 0.0
    requires forall i :: 0 <= i < |items| ==> GoldAccepted(items[i]) && GoldValuedAt(items[i], goldRate)
    requires forall i :: 0 <= i < |items| ==> items[i].karat >= 0
    requires forall i :: 0 <= i < |silverItems| ==> SilverAccepted(silverItems[i]) && SilverValuedAt(silverItems[i], silverRate)
    requires forall i :: 0 <= i < |oldGoldItems| ==> OldGoldAccepted(oldGoldItems[i]) && OldGoldValuedAt(oldGoldItems[i], goldRate)
    requires forall i :: 0 <= i < |payments| ==> PaymentAccepted(payments[i])
    ensures SumBy(items, GoldValueOf) >= 0.0 && SumBy(items, MakingChargeOf) >= 0.0
    ensures SumBy(silverItems, SilverValueOf) >= 0.0 && SumBy(oldGoldItems, OldGoldValueOf) >= 0.0
    ensures SumBy(payments, AmountOf) >= 0.0
    ensures payments != [] ==> SumBy(payments, AmountOf) > 0.0
  {
    EntryValuesNonNegative(items, silverItems, oldGoldItems, goldRate, silverRate);
    SumByNonNegative(items, GoldValueOf);
    SumByNonNegative(items, MakingChargeOf);
    SumByNonNegative(silverItems, SilverValueOf);
    SumByNonNegative(oldGoldItems, OldGoldValueOf);
    SumByNonNegative(payments, AmountOf);
    if payments != [] {
      SumByNonNegative(payments[..|payments| - 1], AmountOf);
    }
  }

  /** Accepted entries valued at non-negative rates have non-negative values
      and making charges. */
  lemma EntryValuesNonNegative(items: seq<GoldItem>, silverItems: seq<SilverItem>, oldGoldItems: seq<OldGoldItem>,
                               goldRate: real, silverRate: real)
    requires goldRate >= 0.0 && silverRate >= 0.0
    requires forall i :: 0 <= i < |items| ==> GoldAccepted(items[i]) && GoldValuedAt(items[i], goldRate)
    requires forall i :: 0 <= i < |items| ==> items[i].karat >= 0
    requires forall i :: 0 <= i < |silverItems| ==> SilverAccepted(silverItems[i]) && SilverValuedAt(silverItems[i], silverRate)
    requires forall i :: 0 <= i < |oldGoldItems| ==> OldGoldAccepted(oldGoldItems[i]) && OldGoldValuedAt(oldGoldItems[i], goldRate)
    ensures forall i :: 0 <= i < |items| ==> GoldValueOf(items[i]) >= 0.0 && MakingChargeOf(items[i]) >= 0.0
    ensures forall i :: 0 <= i < |silverItems| ==> SilverValueOf(silverItems[i]) >= 0.0
    ensures forall i :: 0 <= i < |oldGoldItems| ==> OldGoldValueOf(oldGoldItems[i]) >= 0.0
  {
    forall i | 0 <= i < |items|
      ensures GoldValueOf(items[i]) >= 0.0 && MakingChargeOf(items[i]) >= 0.0
    {
      var g := items[i];
      NonNegativeProduct(g.netWeight, g.karat as real / ReferenceKarat);
      NonNegativeProduct(g.purityAdjustedWeight, goldRate);
      NonNegativeProduct(g.grossWeight, g.makingCharge.value);
    }
    forall i | 0 <= i < |silverItems|
      ensures SilverValueOf(silverItems[i]) >= 0.0
    {
      NonNegativeProduct(silverItems[i].weight, silverRate);
    }
    forall i | 0 <= i < |oldGoldItems|
      ensures OldGoldValueOf(oldGoldItems[i]) >= 0.0
    {
      var o := oldGoldItems[i];
      NonNegativeProduct(o.netWeight, o.purityPercent / ReferencePurity);
      NonNegativeProduct(o.purityAdjustedWeight, goldRate);
    }
  }

  lemma NonNegativeProduct(x: real, y: real)
    requires x >= 0.0 && y >= 0.0
    ensures x * y >= 0.0
  {
  }

  /** The gold subtotal is proportional to the gold rate: revaluing every
      item at `k` times the rate multiplies the subtotal by `k`. */
  lemma GoldSubtotalScalesWithRate(items: seq<GoldItem>, goldRate: real, k: real)
    ensures SumBy(RevalueAllGold(items, k * goldRate), GoldValueOf)
         == k * SumBy(RevalueAllGold(items, goldRate), GoldValueOf)
  {
    EntriesScaleWithRate(items, goldRate, k);
    SumByProportional(RevalueAllGold(items, k * goldRate), RevalueAllGold(items, goldRate), GoldValueOf, GoldValueOf, k);
  }

  lemma EntriesScaleWithRate(items: seq<GoldItem>, goldRate: real, k: real)
    ensures |RevalueAllGold(items, k * goldRate)| == |RevalueAllGold(items, goldRate)|
    ensures forall i :: 0 <= i < |items| ==>
      GoldValueOf(RevalueAllGold(items, k * goldRate)[i]) == k * GoldValueOf(RevalueAllGold(items, goldRate)[i])
  {
    forall i | 0 <= i < |items|
      ensures GoldValueOf(RevalueAllGold(items, k * goldRate)[i]) == k * GoldValueOf(RevalueAllGold(items, goldRate)[i])
    {
      GoldValueLinearInRate(items[i], goldRate, k);
    }
  }



  /** A zero gold rate gives a zero gold subtotal. */
  lemma ZeroRateZeroGoldSubtotal(items: seq<GoldItem>)
    ensures SumBy(RevalueAllGold(items, 0.0), GoldValueOf) == 0.0
  {
    GoldSubtotalScalesWithRate(items, 1.0, 0.0);
  }

  /** A percentage that is not a number is charged as 0%. */
  lemma NonNumericPercentIsZero(items: seq<GoldItem>, silverItems: seq<SilverItem>, oldGoldItems: seq<OldGoldItem>,
                                payments: seq<Payment>, goldRate: real, silverRate: real, discount: Option<real>)
    requires items != [] || silverItems != [] || oldGoldItems != []
    ensures var t := CalculateTotals(items, silverItems, oldGoldItems, payments, goldRate, silverRate,
                                     Charges(None, None, discount)).value;
      && t.wastageValue == 0.0 && t.gstValue == 0.0 && t.grandTotal == t.totalBeforeGst
      && t.totalBeforeGst == t.goldSubtotal + t.goldMakingCharges + t.silverSubtotal
  {
  }

  /** The worked example: one 10 g 22-karat ring with a 0.5 g stone and a
      flat making charge of 500, at 6000 per gram, 10% wastage and 3% GST. */
  lemma WorkedExample()
    ensures var ring := GoldEntry(1, "Ring", Some(10.0), Some(0.5), 22, Flat, Some(500.0), 6000.0);
      && ring.Ok?
      && ring.value.netWeight == 9.5 && ring.value.purityAdjustedWeight == 9.5
      && ring.value.goldValue == 57000.0
      && var t := CalculateTotals([ring.value], [], [], [], 6000.0, 80.0, Charges(Some(10.0), Some(3.0), None)).value;
      && t.wastageValue == 5700.0 && t.goldMakingCharges == 500.0
      && t.totalBeforeGst == 63200.0 && t.gstValue == 1896.0 && t.grandTotal == 65096.0
      && t.netPayable == 65096.0 && t.balanceDue == 65096.0
  {
    var entry := GoldEntry(1, "Ring", Some(10.0), Some(0.5), 22, Flat, Some(500.0), 6000.0);
    assert entry.Ok?;
    var ring := entry.value;
    assert ring.netWeight == 9.5;
    assert ring.purityAdjustedWeight == 9.5 * (22 as real / 22.0) == 9.5;
    assert ring.goldValue == 9.5 * 6000.0 == 57000.0;
    assert SumBy([ring], GoldValueOf) == 57000.0;
    assert SumBy([ring], MakingChargeOf) == 500.0;
    var t := CalculateTotals([ring], [], [], [], 6000.0, 80.0, Charges(Some(10.0), Some(3.0), None)).value;
    assert t.goldSubtotal == 57000.0;
    assert t.wastageValue == (57000.0 * 10.0) / 100.0 == 5700.0;
    assert t.totalBeforeGst == 63200.0;
    assert t.gstValue == (63200.0 * 3.0) / 100.0 == 1896.0;
  }

  /** A discount (like old gold) can exceed the bill: the net payable is then
      negative rather than clamped. */
  lemma NetPayableCanBeNegative()
    ensures var anklet := SilverEntry(2, "Anklet", Some(10.0), 80.0).value;
      var t := CalculateTotals([], [anklet], [], [], 6000.0, 80.0, Charges(None, None, Some(1000.0))).value;
      && t.grandTotal == 800.0 && t.netPayable == -200.0 && t.balanceDue == -200.0
  {
    var anklet := SilverEntry(2, "Anklet", Some(10.0), 80.0).value;
    assert SumBy([anklet], SilverValueOf) == 800.0;
  }
}
