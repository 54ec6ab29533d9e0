/** Bill entries and their valuation: gold items priced by purity against the
    22-karat rate, silver by weight, old gold traded in against the 91.6%
    standard, and the checks an entry form applies before an entry is
    accepted (app.js, `recalculateAllItemValues` and the four form
    handlers). */
module Valuation {
  import opened Lists

  /** Gold items are priced relative to 22 karat. */
  const ReferenceKarat: real := 22.0
  /** Old gold is priced relative to 91.6% fine (the 22-karat standard). */
  const ReferencePurity: real := 91.6

  datatype MakingKind = PerGram | Flat
  datatype MakingCharge = MakingCharge(kind: MakingKind, value: real)

  /** A gold item as entered, with the three values derived from it. */
  datatype GoldItem = GoldItem(
    id: nat, name: string, grossWeight: real, stoneWeight: real, karat: int,
    makingCharge: MakingCharge,
    netWeight: real, purityAdjustedWeight: real, goldValue: real)

  datatype SilverItem = SilverItem(id: nat, name: string, weight: real, value: real)

  /** Customer gold taken in exchange. */
  datatype OldGoldItem = OldGoldItem(
    id: nat, name: string, netWeight: real, purityPercent: real,
    purityAdjustedWeight: real, goldValue: real)

  datatype Payment = Payment(id: nat, mode: string, amount: real, reference: string)

  /** Why an entry form refused its input (one alert each in the source). */
  datatype Rejection =
    | MissingName
    | InvalidWeights
    | InvalidMakingCharge
    | InvalidWeight
    | InvalidWeightOrPurity
    | InvalidAmount

  datatype Result<T> = Ok(value: T) | Err(reason: Rejection)

  /** `parseFloat(x) || 0`: a value that did not parse counts as 0. */
  function OrZero(x: Option<real>): (r: real)
    ensures x.None? ==> r == 0.0
    ensures x.Some? ==> r == x.value
  {
    match x
    case None => 0.0
    case Some(v) => v
  }

  function GoldId(g: GoldItem): nat { g.id }
  function SilverId(s: SilverItem): nat { s.id }
  function OldGoldId(o: OldGoldItem): nat { o.id }
  function PaymentId(p: Payment): nat { p.id }

  // ---- derived values -------------------------------------------------------

  /** The derived fields of a gold item agree with its entered fields and
      the gold rate. */
  predicate GoldValuedAt(g: GoldItem, goldRate: real)
  {
    && g.netWeight == g.grossWeight - g.stoneWeight
    && g.purityAdjustedWeight == g.netWeight * (g.karat as real / ReferenceKarat)
    && g.goldValue == g.purityAdjustedWeight * goldRate
  }

  predicate SilverValuedAt(s: SilverItem, silverRate: real)
  {
    s.value == s.weight * silverRate
  }

  predicate OldGoldValuedAt(o: OldGoldItem, goldRate: real)
  {
    && o.purityAdjustedWeight == o.netWeight * (o.purityPercent / ReferencePurity)
    && o.goldValue == o.purityAdjustedWeight * goldRate
  }

  /** Recomputes the derived fields of a gold item at a new rate; the entered
      fields are kept. */
  function RevalueGold(g: GoldItem, goldRate: real): (r: GoldItem)
    ensures GoldValuedAt(r, goldRate)
    ensures r.(netWeight := 0.0, purityAdjustedWeight := 0.0, goldValue := 0.0)
         == g.(netWeight := 0.0, purityAdjustedWeight := 0.0, goldValue := 0.0)
  {
    var net := g.grossWeight - g.stoneWeight;
    var adjusted := net * (g.karat as real / ReferenceKarat);
    g.(netWeight := net, purityAdjustedWeight := adjusted, goldValue := adjusted * goldRate)
  }

  function RevalueSilver(s: SilverItem, silverRate: real): (r: SilverItem)
    ensures SilverValuedAt(r, silverRate)
    ensures r.(value := 0.0) == s.(value := 0.0)
  {
    s.(value := s.weight * silverRate)
  }

  function RevalueOldGold(o: OldGoldItem, goldRate: real): (r: OldGoldItem)
    ensures OldGoldValuedAt(r, goldRate)
    ensures r.(purityAdjustedWeight := 0.0, goldValue := 0.0)
         == o.(purityAdjustedWeight := 0.0, goldValue := 0.0)
  {
    var adjusted := o.netWeight * (o.purityPercent / ReferencePurity);
    o.(purityAdjustedWeight := adjusted, goldValue := adjusted * goldRate)
  }

  /** `recalculateAllItemValues` as a function: every entry revalued in place. */
  function RevalueAllGold(s: seq<GoldItem>, goldRate: real): seq<GoldItem>
  {
    seq(|s|, i requires 0 <= i < |s| => RevalueGold(s[i], goldRate))
  }

  function RevalueAllSilver(s: seq<SilverItem>, silverRate: real): seq<SilverItem>
  {
    seq(|s|, i requires 0 <= i < |s| => RevalueSilver(s[i], silverRate))
  }

  function RevalueAllOldGold(s: seq<OldGoldItem>, goldRate: real): seq<OldGoldItem>
  {
    seq(|s|, i requires 0 <= i < |s| => RevalueOldGold(s[i], goldRate))
  }

  /** The making charge of one gold item: per gram of gross weight, or flat. */
  function MakingChargeOf(g: GoldItem): (r: real)
    ensures g.makingCharge.kind.PerGram? ==> r == g.grossWeight * g.makingCharge.value
    ensures g.makingCharge.kind.Flat? ==> r == g.makingCharge.value
    ensures g.grossWeight >= 0.0 && g.makingCharge.value >= 0.0 ==> r >= 0.0
  {
    match g.makingCharge.kind
    case PerGram => g.grossWeight * g.makingCharge.value
    case Flat => g.makingCharge.value
  }

  function GoldValueOf(g: GoldItem): real { g.goldValue }
  function SilverValueOf(s: SilverItem): real { s.value }
  function OldGoldValueOf(o: OldGoldItem): real { o.goldValue }
  function AmountOf(p: Payment): real { p.amount }

  /** Gold value is linear in the rate: scaling the rate by `k` scales the
      value by `k`, and a zero rate gives zero value. */
  lemma GoldValueLinearInRate(g: GoldItem, goldRate: real, k: real)
    ensures RevalueGold(g, k * goldRate).goldValue == k * RevalueGold(g, goldRate).goldValue
    ensures RevalueGold(g, 0.0).goldValue == 0.0
  {
    var adjusted := RevalueGold(g, goldRate).purityAdjustedWeight;
    assert adjusted * (k * goldRate) == k * (adjusted * goldRate);
  }

  /** At a zero rate, silver and old gold are worth nothing either. */
  lemma ZeroRateZeroValue(s: SilverItem, o: OldGoldItem)
    ensures RevalueSilver(s, 0.0).value == 0.0
    ensures RevalueOldGold(o, 0.0).goldValue == 0.0
  {
  }

  /** A 22-karat item is valued at its full net weight. */
  lemma TwentyTwoKaratIsFullWeight(g: GoldItem, goldRate: real)
    requires g.karat == 22
    ensures RevalueGold(g, goldRate).purityAdjustedWeight == g.grossWeight - g.stoneWeight
  {
  }

  /** Old gold at the reference purity counts at its full net weight; lower
      purity counts for proportionally less. */
  lemma ReferencePurityIsFullWeight(o: OldGoldItem, goldRate: real)
    requires o.netWeight > 0.0 && 0.0 < o.purityPercent <= 100.0
    ensures o.purityPercent == ReferencePurity ==> RevalueOldGold(o, goldRate).purityAdjustedWeight == o.netWeight
    ensures o.purityPercent < ReferencePurity ==> RevalueOldGold(o, goldRate).purityAdjustedWeight < o.netWeight
    ensures 0.0 < RevalueOldGold(o, goldRate).purityAdjustedWeight
  {
    var f := o.purityPercent / ReferencePurity;
    assert f * ReferencePurity == o.purityPercent;
    assert RevalueOldGold(o, goldRate).purityAdjustedWeight == o.netWeight * f;
    assert 0.0 < f;
    if o.purityPercent < ReferencePurity {
      assert f < 1.0;
      assert o.netWeight * f < o.netWeight * 1.0;
    }
  }

  // ---- entry validation -----------------------------------------------------

  /** Invariant of every accepted gold item. */
  predicate GoldAccepted(g: GoldItem)
  {
    && g.name != []
    && g.grossWeight > 0.0
    && 0.0 <= g.stoneWeight <= g.grossWeight
    && g.makingCharge.value >= 0.0
  }

  predicate SilverAccepted(s: SilverItem)
  {
    s.name != [] && s.weight > 0.0
  }

  predicate OldGoldAccepted(o: OldGoldItem)
  {
    o.name != [] && o.netWeight > 0.0 && 0.0 < o.purityPercent <= 100.0
  }

  predicate PaymentAccepted(p: Payment)
  {
    p.amount > 0.0
  }

  /** The gold form: the name must be present, the gross weight a positive
      number, the stone weight (0 when blank) between 0 and the gross weight,
      and the making charge a non-negative number. */
  function GoldEntry(id: nat, name: string, gross: Option<real>, stone: Option<real>, karat: int,
                     kind: MakingKind, making: Option<real>, goldRate: real): (r: Result<GoldItem>)
    ensures r.Ok? <==>
      && name != []
      && gross.Some? && gross.value > 0.0
      && 0.0 <= OrZero(stone) <= gross.value
      && making.Some? && making.value >= 0.0
    ensures r.Err? ==> r.reason == (if name == [] then MissingName
                                    else if gross.None? || gross.value <= 0.0 || OrZero(stone) < 0.0
                                            || gross.value < OrZero(stone) then InvalidWeights
                                    else InvalidMakingCharge)
    ensures r.Ok? ==>
      && r.value.id == id && r.value.name == name && r.value.karat == karat
      && r.value.grossWeight == gross.value && r.value.stoneWeight == OrZero(stone)
      && r.value.makingCharge == MakingCharge(kind, making.value)
      && GoldAccepted(r.value) && GoldValuedAt(r.value, goldRate)
      && 0.0 <= r.value.netWeight <= r.value.grossWeight
  {
    var stoneWeight := OrZero(stone);
    if name == [] then Err(MissingName)
    else if gross.None? || gross.value <= 0.0 || stoneWeight < 0.0 || gross.value < stoneWeight then Err(InvalidWeights)
    else if making.None? || making.value < 0.0 then Err(InvalidMakingCharge)
    else
      var entered := GoldItem(id, name, gross.value, stoneWeight, karat,
                              MakingCharge(kind, making.value), 0.0, 0.0, 0.0);
      Ok(RevalueGold(entered, goldRate))
  }

  /** The silver form: a name and a positive weight. */
  function SilverEntry(id: nat, name: string, weight: Option<real>, silverRate: real): (r: Result<SilverItem>)
    ensures r.Ok? <==> name != [] && weight.Some? && weight.value > 0.0
    ensures r.Err? ==> r.reason == if name == [] then MissingName else InvalidWeight
    ensures r.Ok? ==>
      && r.value.id == id && r.value.name == name && r.value.weight == weight.value
      && SilverAccepted(r.value) && SilverValuedAt(r.value, silverRate)
  {
    if name == [] then Err(MissingName)
    else if weight.None? || weight.value <= 0.0 then Err(InvalidWeight)
    else Ok(RevalueSilver(SilverItem(id, name, weight.value, 0.0), silverRate))
  }

  /** The old-gold form: a name, a positive net weight and a purity in (0, 100]. */
  function OldGoldEntry(id: nat, name: string, netWeight: Option<real>, purity: Option<real>,
                        goldRate: real): (r: Result<OldGoldItem>)
    ensures r.Ok? <==>
      && name != []
      && netWeight.Some? && netWeight.value > 0.0
      && purity.Some? && 0.0 < purity.value <= 100.0
    ensures r.Err? ==> r.reason == if name == [] then MissingName else InvalidWeightOrPurity
    ensures r.Ok? ==>
      && r.value.id == id && r.value.name == name
      && r.value.netWeight == netWeight.value && r.value.purityPercent == purity.value
      && OldGoldAccepted(r.value) && OldGoldValuedAt(r.value, goldRate)
  {
    if name == [] then Err(MissingName)
    else if netWeight.None? || netWeight.value <= 0.0 || purity.None? || purity.value <= 0.0 || purity.value > 100.0 then
      Err(InvalidWeightOrPurity)
    else Ok(RevalueOldGold(OldGoldItem(id, name, netWeight.value, purity.value, 0.0, 0.0), goldRate))
  }

  /** The payment form: only the amount is checked, and it must be positive. */
  function PaymentEntry(id: nat, mode: string, amount: Option<real>, reference: string): (r: Result<Payment>)
    ensures r.Ok? <==> amount.Some? && amount.value > 0.0
    ensures r.Err? ==> r.reason == InvalidAmount
    ensures r.Ok? ==> r.value == Payment(id, mode, amount.value, reference) && PaymentAccepted(r.value)
  {
    if amount.None? || amount.value <= 0.0 then Err(InvalidAmount)
    else Ok(Payment(id, mode, amount.value, reference))
  }
}
