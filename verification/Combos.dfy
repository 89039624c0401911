/** Defined-risk option verticals: the claimed maximum loss against the payoff at expiry. */
module Combos {
  import opened Wrappers
  import opened Orders
  import Risk

  /** A validated combo leg. */
  datatype Leg = Leg(instrument: Instrument, ratio: int, action: Side, exchange: string, openClose: int)

  /** What the leg type itself enforces. */
  predicate LegOk(l: Leg) {
    && 1 <= l.ratio <= 100 && 1 <= |l.exchange| <= 32 && 0 <= l.openClose <= 3
    && l.instrument.assetType != Combo && l.instrument.conid.Some? && l.instrument.conid.value != 0
    && (l.instrument.strike.Some? ==> l.instrument.strike.value > 0.0)
  }

  datatype Structure = Vertical(right: Right, debit: bool)

  datatype Profile = Profile(
    structure: Structure, width: real, premium: real, multiplier: real, maxLoss: real, maxProfit: real)

  datatype ComboError =
    | NotTwoLegs | NotOneToOne | NotBuyAndSell | NotOptions | LegsDiffer | IncompleteContract | EqualStrikes
    | DebitNeedsPositivePrice | CreditNeedsNegativePrice | PremiumTooLarge | MultipliersDiffer | BadMultiplier
    | NotACombo | NotBuyLimit | NoLimitPrice | UnsupportedKind | MissingLegs | BadLeg | LegConidDiffers
    | TamperedMultiplier | TamperedLoss | TamperedProfit | MissingProfile | TamperedProfile

  datatype LegIdentity = LegIdentity(symbol: string, currency: string, expiry: Option<int>, right: Option<Right>)

  function IdentityOf(i: Instrument): LegIdentity { LegIdentity(i.symbol, i.currency, i.expiry, i.right) }

  datatype Pair = Pair(long: Leg, short: Leg)

  function ValidateLegs(legs: seq<Leg>): Result<Pair, ComboError> {
    if |legs| != 2 then Err(NotTwoLegs)
    else if legs[0].ratio != 1 || legs[1].ratio != 1 then Err(NotOneToOne)
    else if legs[0].action == legs[1].action then Err(NotBuyAndSell)
    else if legs[0].instrument.assetType != OptionContract || legs[1].instrument.assetType != OptionContract then
      Err(NotOptions)
    else if IdentityOf(legs[0].instrument) != IdentityOf(legs[1].instrument) then Err(LegsDiffer)
    else Ok(if legs[0].action == Buy then Pair(legs[0], legs[1]) else Pair(legs[1], legs[0]))
  }

  function LegMultiplier(l: Leg): real { if l.instrument.multiplier.Some? then l.instrument.multiplier.value else 100.0 }

  function ComboMultiplier(long: Leg, short: Leg): Result<real, ComboError> {
    if LegMultiplier(long) != LegMultiplier(short) then Err(MultipliersDiffer)
    else if LegMultiplier(long) <= 0.0 then Err(BadMultiplier)
    else Ok(LegMultiplier(long))
  }

  function Distance(a: real, b: real): real { if a < b then b - a else a - b }

  /** The contract terms of a vertical. */
  datatype Spread = Spread(right: Right, bought: real, sold: real)

  predicate Debit(v: Spread) { if v.right == CallRight then v.bought < v.sold else v.bought > v.sold }

  function Width(v: Spread): real { Distance(v.bought, v.sold) }

  function SpreadOf(long: Leg, short: Leg): Result<Spread, ComboError> {
    if long.instrument.strike.None? || short.instrument.strike.None? || long.instrument.right.None? then
      Err(IncompleteContract)
    else Ok(Spread(long.instrument.right.value, long.instrument.strike.value, short.instrument.strike.value))
  }

  function PriceError(v: Spread, limit: real): Option<ComboError> {
    if Width(v) <= 0.0 then Some(EqualStrikes)
    else if Debit(v) && limit <= 0.0 then Some(DebitNeedsPositivePrice)
    else if !Debit(v) && limit >= 0.0 then Some(CreditNeedsNegativePrice)
    else if Premium(limit) >= Width(v) then Some(PremiumTooLarge)
    else None
  }

  function Premium(limit: real): real { if limit < 0.0 then -limit else limit }

  function LossPoints(v: Spread, limit: real): real {
    if Debit(v) then Premium(limit) else Width(v) - Premium(limit)
  }

  function ProfitPoints(v: Spread, limit: real): real {
    if Debit(v) then Width(v) - Premium(limit) else Premium(limit)
  }

  function ProfileFor(v: Spread, limit: real, m: real): Profile {
    Profile(Vertical(v.right, Debit(v)), Width(v), Premium(limit), m, LossPoints(v, limit) * m, ProfitPoints(v, limit) * m)
  }

  function RiskProfile(legs: seq<Leg>, limit: real): Result<Profile, ComboError> {
    var pair := ValidateLegs(legs);
    if pair.Err? then Err(pair.error)
    else
      var spread := SpreadOf(pair.value.long, pair.value.short);
      if spread.Err? then Err(spread.error)
      else
        var v := spread.value;
        if PriceError(v, limit).Some? then Err(PriceError(v, limit).value)
        else
          var multiplier := ComboMultiplier(pair.value.long, pair.value.short);
          if multiplier.Err? then Err(multiplier.error)
          else
            Ok(ProfileFor(v, limit, multiplier.value))
  }

  // ------------------------------------------------------------- payoff at expiry

  /** What one option is worth at expiry when the underlying is at `s`. */
  function Intrinsic(right: Right, strike: real, s: real): real {
    if right == CallRight then Max(0.0, s - strike) else Max(0.0, strike - s)
  }

  /** Result in points of one spread bought at the signed limit price and held to expiry. */
  function Points(v: Spread, limit: real, s: real): real {
    Intrinsic(v.right, v.bought, s) - Intrinsic(v.right, v.sold, s) - limit
  }

  /** Result in money at multiplier `m`. */
  function Money(v: Spread, limit: real, m: real, s: real): real { Points(v, limit, s) * m }

  /** The amounts that cover, and that cap, the result at every price of the underlying. */
  ghost predicate Covers(v: Spread, limit: real, m: real, bound: real) { forall s | s >= 0.0 :: Money(v, limit, m, s) >= -bound }
  ghost predicate Caps(v: Spread, limit: real, m: real, bound: real) { forall s | s >= 0.0 :: Money(v, limit, m, s) <= bound }

  /** The terms an accepted vertical trades on, and its multiplier. */
  function TermsOf(legs: seq<Leg>, limit: real): (Spread, real)
    requires RiskProfile(legs, limit).Ok?
  {
    var pair := ValidateLegs(legs).value;
    (SpreadOf(pair.long, pair.short).value, LegMultiplier(pair.long))
  }

  /** The two prices of the underlying at which a spread is worth least and most. */
  function Worst(v: Spread): real { if Debit(v) == (v.right == CallRight) then Min(v.bought, v.sold) else Max(v.bought, v.sold) }
  function Best(v: Spread): real { if Debit(v) == (v.right == CallRight) then Max(v.bought, v.sold) else Min(v.bought, v.sold) }

  lemma {:induction false} PointsRange(v: Spread, limit: real, s: real)
    requires PriceError(v, limit).None?
    ensures -LossPoints(v, limit) <= Points(v, limit, s) <= ProfitPoints(v, limit)
    ensures Points(v, limit, Worst(v)) == -LossPoints(v, limit)
    ensures Points(v, limit, Best(v)) == ProfitPoints(v, limit)
    ensures LossPoints(v, limit) > 0.0 && ProfitPoints(v, limit) > 0.0
    ensures LossPoints(v, limit) + ProfitPoints(v, limit) == Width(v)
  {
  }

  lemma {:induction false} Bracket(loss: real, x: real, profit: real, m: real)
    requires -loss <= x <= profit && m > 0.0
    ensures -(loss * m) <= x * m <= profit * m
  {
    assert (x + loss) * m >= 0.0 && (profit - x) * m >= 0.0;
  }

  lemma {:induction false} Negated(a: real, m: real)
    ensures -a * m == -(a * m)
  {
  }

  lemma {:induction false} MoneyEnds(v: Spread, limit: real, m: real)
    requires PriceError(v, limit).None? && m > 0.0
    ensures var p := ProfileFor(v, limit, m);
      Money(v, limit, m, Worst(v)) == -p.maxLoss && Money(v, limit, m, Best(v)) == p.maxProfit
  {
    PointsRange(v, limit, 0.0);
    Negated(LossPoints(v, limit), m);
  }

  lemma {:induction false} MoneyRange(v: Spread, limit: real, m: real, s: real)
    requires PriceError(v, limit).None? && m > 0.0
    ensures var p := ProfileFor(v, limit, m); -p.maxLoss <= Money(v, limit, m, s) <= p.maxProfit
  {
    PointsRange(v, limit, s);
    Bracket(LossPoints(v, limit), Points(v, limit, s), ProfitPoints(v, limit), m);
  }

  lemma {:induction false} Extremes(
    v: Spread, limit: real, m: real, loss: real, profit: real, worst: real, best: real, bound: real)
    requires forall s | s >= 0.0 :: -loss <= Money(v, limit, m, s) <= profit
    requires worst >= 0.0 && Money(v, limit, m, worst) == -loss && best >= 0.0 && Money(v, limit, m, best) == profit
    ensures Covers(v, limit, m, bound) <==> bound >= loss
    ensures Caps(v, limit, m, bound) <==> bound >= profit
  {
  }

  /** The profile's loss is the least amount that covers every outcome, its profit the least that caps them. */
  lemma {:induction false} LeastBound(v: Spread, limit: real, m: real, bound: real)
    requires PriceError(v, limit).None? && m > 0.0 && v.bought >= 0.0 && v.sold >= 0.0
    ensures Covers(v, limit, m, bound) <==> bound >= ProfileFor(v, limit, m).maxLoss
    ensures Caps(v, limit, m, bound) <==> bound >= ProfileFor(v, limit, m).maxProfit
  {
    var p := ProfileFor(v, limit, m);
    forall s | s >= 0.0 ensures -p.maxLoss <= Money(v, limit, m, s) <= p.maxProfit {
      MoneyRange(v, limit, m, s);
    }
    MoneyEnds(v, limit, m);
    Extremes(v, limit, m, p.maxLoss, p.maxProfit, Worst(v), Best(v), bound);
  }

  lemma {:induction false} ProfileTerms(legs: seq<Leg>, limit: real)
    requires RiskProfile(legs, limit).Ok? && forall l <- legs :: LegOk(l)
    ensures var (v, m) := TermsOf(legs, limit);
      && PriceError(v, limit).None? && m > 0.0 && v.bought > 0.0 && v.sold > 0.0
      && RiskProfile(legs, limit).value == ProfileFor(v, limit, m)
  {
    var pair := ValidateLegs(legs).value;
    assert pair.long in legs && pair.short in legs;
  }

  lemma {:induction false} Parts(loss: real, profit: real, m: real)
    requires loss > 0.0 && profit > 0.0 && m > 0.0
    ensures loss * m > 0.0 && profit * m > 0.0 && loss * m + profit * m == (loss + profit) * m
  {
  }

  lemma {:induction false} TermsAddUp(v: Spread, limit: real, m: real)
    requires PriceError(v, limit).None? && m > 0.0
    ensures var p := ProfileFor(v, limit, m);
      p.maxLoss > 0.0 && p.maxProfit > 0.0 && p.maxLoss + p.maxProfit == p.width * p.multiplier
  {
    PointsRange(v, limit, 0.0);
    Parts(LossPoints(v, limit), ProfitPoints(v, limit), m);
  }

  // ------------------------------------------------- the bag, leg by leg

  /** What the price at expiry of a leg depends on. */
  datatype Underlying = Underlying(symbol: string, currency: string, expiry: Option<int>)

  type Market = Underlying -> real

  ghost predicate Feasible(market: Market) { forall u :: market(u) >= 0.0 }

  /** What one contract is worth at expiry, per unit of its multiplier. */
  function ContractValue(i: Instrument, market: Market): real {
    var s := market(Underlying(i.symbol, i.currency, i.expiry));
    if i.assetType == OptionContract && i.strike.Some? && i.right.Some? then Intrinsic(i.right.value, i.strike.value, s) else s
  }

  function LegResult(l: Leg, market: Market): real {
    (if l.action == Buy then l.ratio as real else -(l.ratio as real)) * (ContractValue(l.instrument, market) * LegMultiplier(l))
  }

  function LegSum(legs: seq<Leg>, market: Market): real {
    if legs == [] then 0.0 else LegResult(legs[0], market) + LegSum(legs[1..], market)
  }

  /** Result of one bag bought at the signed limit price and held to expiry, from the legs alone. */
  function BagResult(legs: seq<Leg>, limit: real, market: Market): real {
    LegSum(legs, market) - if legs == [] then 0.0 else limit * LegMultiplier(legs[0])
  }

  ghost predicate BagCovered(legs: seq<Leg>, limit: real, bound: real) {
    forall market | Feasible(market) :: BagResult(legs, limit, market) >= -bound
  }

  ghost predicate BagCapped(legs: seq<Leg>, limit: real, bound: real) {
    forall market | Feasible(market) :: BagResult(legs, limit, market) <= bound
  }

  lemma {:induction false} TwoLegs(a: real, b: real, m: real, limit: real)
    ensures 1.0 * (a * m) + -1.0 * (b * m) - limit * m == (a - b - limit) * m
    ensures -1.0 * (b * m) + 1.0 * (a * m) - limit * m == (a - b - limit) * m
  {
  }

  lemma {:induction false} SumOfTwo(legs: seq<Leg>, market: Market)
    requires |legs| == 2
    ensures LegSum(legs, market) == LegResult(legs[0], market) + LegResult(legs[1], market)
  {
    var rest := legs[1..];
    assert rest[0] == legs[1] && rest[1..] == [];
    assert LegSum(rest, market) == LegResult(rest[0], market) + LegSum(rest[1..], market);
  }

  lemma {:induction false} OneToOneLeg(l: Leg, market: Market)
    requires l.ratio == 1
    ensures LegResult(l, market)
         == (if l.action == Buy then 1.0 else -1.0) * (ContractValue(l.instrument, market) * LegMultiplier(l))
  {
  }

  lemma {:induction false} Legwise(legs: seq<Leg>, limit: real, market: Market, m: real, a: real, b: real)
    requires |legs| == 2 && legs[0].ratio == 1 && legs[1].ratio == 1
    requires LegMultiplier(legs[0]) == m == LegMultiplier(legs[1])
    requires if legs[0].action == Buy
             then legs[1].action == Sell && ContractValue(legs[0].instrument, market) == a
                  && ContractValue(legs[1].instrument, market) == b
             else legs[1].action == Buy && ContractValue(legs[0].instrument, market) == b
                  && ContractValue(legs[1].instrument, market) == a
    ensures BagResult(legs, limit, market) == (a - b - limit) * m
  {
    SumOfTwo(legs, market);
    OneToOneLeg(legs[0], market);
    OneToOneLeg(legs[1], market);
    TwoLegs(a, b, m, limit);
  }

  /** An accepted pair of legs behaves as one spread on one underlying. */
  lemma {:induction false} BagIsSpread(legs: seq<Leg>, limit: real, market: Market)
    requires RiskProfile(legs, limit).Ok?
    ensures var (v, m) := TermsOf(legs, limit); var i := legs[0].instrument;
      BagResult(legs, limit, market) == Money(v, limit, m, market(Underlying(i.symbol, i.currency, i.expiry)))
  {
    var pair, i := ValidateLegs(legs).value, legs[0].instrument;
    var (v, m) := TermsOf(legs, limit);
    var s := market(Underlying(i.symbol, i.currency, i.expiry));
    var long, short := ContractValue(pair.long.instrument, market), ContractValue(pair.short.instrument, market);
    assert IdentityOf(legs[1].instrument) == IdentityOf(i);
    assert long == Intrinsic(v.right, v.bought, s) && short == Intrinsic(v.right, v.sold, s);
    Legwise(legs, limit, market, m, long, short);
  }

  lemma {:induction false} BagBounds(legs: seq<Leg>, limit: real, bound: real)
    requires RiskProfile(legs, limit).Ok?
    ensures var (v, m) := TermsOf(legs, limit);
      (BagCovered(legs, limit, bound) <==> Covers(v, limit, m, bound)) && (BagCapped(legs, limit, bound) <==> Caps(v, limit, m, bound))
  {
    var (v, m) := TermsOf(legs, limit);
    var i := legs[0].instrument;
    forall market | Feasible(market)
      ensures BagResult(legs, limit, market) == Money(v, limit, m, market(Underlying(i.symbol, i.currency, i.expiry)))
      ensures market(Underlying(i.symbol, i.currency, i.expiry)) >= 0.0
    {
      BagIsSpread(legs, limit, market);
    }
    forall s | s >= 0.0 ensures exists market :: Feasible(market) && BagResult(legs, limit, market) == Money(v, limit, m, s) {
      var market: Market := _ => s;
      assert Feasible(market);
      BagIsSpread(legs, limit, market);
    }
  }

  /**
   For every accepted vertical the profile is the payoff range: `maxLoss` is the least amount
   that covers the result of the legs at every price of the underlying, `maxProfit` the least
   that caps it.
   */
  lemma {:induction false} ProfileIsPayoffRange(legs: seq<Leg>, limit: real, bound: real)
    requires RiskProfile(legs, limit).Ok? && forall l <- legs :: LegOk(l)
    ensures var p := RiskProfile(legs, limit).value;
      && (BagCovered(legs, limit, bound) <==> bound >= p.maxLoss)
      && (BagCapped(legs, limit, bound) <==> bound >= p.maxProfit)
  {
    var (v, m) := TermsOf(legs, limit);
    ProfileTerms(legs, limit);
    LeastBound(v, limit, m, bound);
    BagBounds(legs, limit, bound);
  }

  /** Both ends are positive, and together they make up the width. */
  lemma {:induction false} ProfileAddsUp(legs: seq<Leg>, limit: real)
    requires RiskProfile(legs, limit).Ok? && forall l <- legs :: LegOk(l)
    ensures var p := RiskProfile(legs, limit).value;
      p.maxLoss > 0.0 && p.maxProfit > 0.0 && p.maxLoss + p.maxProfit == p.width * p.multiplier
  {
    var (v, m) := TermsOf(legs, limit);
    ProfileTerms(legs, limit);
    TermsAddUp(v, limit, m);
  }

  /** Listing the legs in the other order changes nothing. */
  lemma {:induction false} LegOrderIrrelevant(a: Leg, b: Leg, limit: real)
    ensures RiskProfile([a, b], limit).Ok? <==> RiskProfile([b, a], limit).Ok?
    ensures RiskProfile([a, b], limit).Ok? ==> RiskProfile([a, b], limit) == RiskProfile([b, a], limit)
  {
  }

  // ------------------------------------------------------- preparation and validation

  /** A leg as stored in instrument metadata; a field of the wrong shape reads as missing. */
  datatype LegPayload = LegPayload(
    conid: Option<int>, ratio: Option<int>, action: Option<Side>, exchange: Option<string>, openClose: Option<int>,
    instrument: Option<Instrument>)

  datatype Kind = DefinedRiskVertical | OtherKind

  /** The combo part of the instrument metadata; the multiplier and the loss sit on the instrument. */
  datatype Metadata = Metadata(
    kind: Kind, guaranteed: Option<bool>, nonGuaranteed: Option<bool>, legs: Option<seq<LegPayload>>,
    maxProfit: Option<real>, profile: Option<Profile>)

  datatype ComboOrder = ComboOrder(
    clientOrderId: string, legs: seq<Leg>, quantity: real, limit: real, tif: Tif, account: string, currency: string,
    venue: string, transmit: bool)

  datatype Prepared = Prepared(request: Request, metadata: Metadata)

  function PayloadOf(l: Leg): LegPayload {
    LegPayload(l.instrument.conid, Some(l.ratio), Some(l.action), Some(l.exchange), Some(l.openClose), Some(l.instrument))
  }

  function RawOf(l: LegPayload): RawLeg {
    RawLeg(l.conid, if l.ratio.Some? then Some(l.ratio.value as real) else None, l.action)
  }

  function Map<A, B>(f: A -> B, s: seq<A>): (t: seq<B>)
    ensures |t| == |s| && forall i | 0 <= i < |s| :: t[i] == f(s[i])
  {
    seq(|s|, i requires 0 <= i < |s| => f(s[i]))
  }

  function Prepare(order: ComboOrder): Result<(Prepared, Profile), ComboError> {
    var profile := RiskProfile(order.legs, order.limit);
    if profile.Err? then Err(profile.error)
    else
      var p, long := profile.value, ValidateLegs(order.legs).value.long;
      var payloads := Map(PayloadOf, order.legs);
      var instrument := Instrument(
        Combo, long.instrument.symbol, order.currency, Some(order.venue), None, None, None, None,
        Some(p.multiplier), Some(p.maxLoss), Map(RawOf, payloads));
      var request := Request(
        instrument, Buy, order.quantity, Lmt, Some(order.limit), None, order.tif, order.account, order.clientOrderId,
        order.transmit, false, false, None, None, None, None, false);
      Ok((Prepared(request, Metadata(DefinedRiskVertical, Some(true), Some(false), Some(payloads), Some(p.maxProfit),
                                     Some(p))), p))
  }

  function OrElse<T>(a: Option<T>, b: T): T { if a.Some? then a.value else b }

  function LegFrom(payload: LegPayload): Result<Leg, ComboError> {
    if payload.instrument.None? then Err(BadLeg)
    else
      var i := payload.instrument.value;
      if i.conid != Some(OrElse(payload.conid, 0)) then Err(LegConidDiffers)
      else if payload.ratio.None? || payload.action.None? then Err(BadLeg)
      else
        var exchange := if payload.exchange.Some? && payload.exchange.value != "" then payload.exchange.value else "SMART";
        var leg := Leg(i, payload.ratio.value, payload.action.value, exchange, OrElse(payload.openClose, 0));
        if LegOk(leg) then Ok(leg) else Err(BadLeg)
  }

  function LegsFrom(payloads: seq<LegPayload>): Result<seq<Leg>, ComboError> {
    if payloads == [] then Ok([])
    else
      var first := LegFrom(payloads[0]);
      if first.Err? then Err(first.error)
      else
        var rest := LegsFrom(payloads[1..]);
        if rest.Err? then rest else Ok([first.value] + rest.value)
  }

  /** Recompute the risk of a prepared order from its legs; nothing in the metadata is trusted. */
  function Validate(o: Prepared): Result<Profile, ComboError> {
    var (q, m) := (o.request, o.metadata);
    if q.instrument.assetType != Combo then Err(NotACombo)
    else if q.side != Buy || q.orderType != Lmt then Err(NotBuyLimit)
    else if q.limitPrice.None? then Err(NoLimitPrice)
    else if m.kind != DefinedRiskVertical || m.guaranteed != Some(true) || m.nonGuaranteed != Some(false) then
      Err(UnsupportedKind)
    else if m.legs.None? then Err(MissingLegs)
    else
      var legs := LegsFrom(m.legs.value);
      if legs.Err? then Err(legs.error)
      else
        var profile := RiskProfile(legs.value, q.limitPrice.value);
        if profile.Err? then profile
        else if q.instrument.multiplier != Some(profile.value.multiplier) then Err(TamperedMultiplier)
        else if q.instrument.maxLossPerUnit != Some(profile.value.maxLoss) then Err(TamperedLoss)
        else if m.maxProfit != Some(profile.value.maxProfit) then Err(TamperedProfit)
        else if m.profile.None? then Err(MissingProfile)
        else if m.profile.value != profile.value then Err(TamperedProfile)
        else profile
  }

  /** Decoding the stored legs gives back the legs. */
  lemma {:induction false} LegsRoundTrip(legs: seq<Leg>)
    requires forall l <- legs :: LegOk(l)
    ensures LegsFrom(Map(PayloadOf, legs)) == Ok(legs)
  {
    if legs != [] {
      var payloads := Map(PayloadOf, legs);
      assert legs[0] in legs && LegFrom(payloads[0]) == Ok(legs[0]);
      assert payloads[1..] == Map(PayloadOf, legs[1..]);
      LegsRoundTrip(legs[1..]);
      assert [legs[0]] + legs[1..] == legs;
    }
  }

  /** Validation accepts everything that was prepared, with the same profile. */
  lemma {:induction false} PreparedIsValid(order: ComboOrder)
    requires (forall l <- order.legs :: LegOk(l)) && Prepare(order).Ok?
    ensures Validate(Prepare(order).value.0) == Ok(Prepare(order).value.1)
  {
    LegsRoundTrip(order.legs);
  }

  lemma {:induction false} DecodedLegsOk(payloads: seq<LegPayload>)
    ensures LegsFrom(payloads).Ok? ==> forall l <- LegsFrom(payloads).value :: LegOk(l)
  {
    if payloads != [] { DecodedLegsOk(payloads[1..]); }
  }

  /** What validation has checked about the stored legs and the charged loss. */
  lemma {:induction false} ValidatedTerms(o: Prepared)
    requires Validate(o).Ok?
    ensures o.request.instrument.assetType == Combo && o.request.limitPrice.Some? && o.metadata.legs.Some?
    ensures LegsFrom(o.metadata.legs.value).Ok? && forall l <- LegsFrom(o.metadata.legs.value).value :: LegOk(l)
    ensures var profile := RiskProfile(LegsFrom(o.metadata.legs.value).value, o.request.limitPrice.value);
      profile.Ok? && o.request.instrument.maxLossPerUnit == Some(profile.value.maxLoss)
  {
    DecodedLegsOk(o.metadata.legs.value);
  }

  /**
   Whatever the metadata claims, an order that passes validation is charged exactly its worst
   case: `bound` per bag covers the result of the stored legs at every price of the underlying
   if and only if the whole order is charged no more than `bound` for each bag.
   */
  lemma {:induction false} ValidatedNotionalIsWorstCase(o: Prepared, price: real, multiplier: real, bound: real)
    requires Validate(o).Ok? && o.request.quantity > 0.0
    ensures var charged := Risk.RiskNotional(o.request, price, multiplier);
      var legs := LegsFrom(o.metadata.legs.value).value;
      && charged.Ok?
      && (BagCovered(legs, o.request.limitPrice.value, bound) <==> charged.value <= o.request.quantity * bound)
  {
    ValidatedTerms(o);
    var legs, limit := LegsFrom(o.metadata.legs.value).value, o.request.limitPrice.value;
    ProfileIsPayoffRange(legs, limit, bound);
    ProfileAddsUp(legs, limit);
    ChargedWithin(o.request, price, multiplier, bound);
  }

  lemma {:induction false} ChargedWithin(q: Request, price: real, multiplier: real, bound: real)
    requires q.instrument.assetType == Combo && q.quantity > 0.0
    requires q.instrument.maxLossPerUnit.Some? && q.instrument.maxLossPerUnit.value > 0.0
    ensures var charged := Risk.RiskNotional(q, price, multiplier);
      charged.Ok? && (charged.value <= q.quantity * bound <==> q.instrument.maxLossPerUnit.value <= bound)
  {
    var loss := q.instrument.maxLossPerUnit.value;
    assert Risk.RiskNotional(q, price, multiplier).value == q.quantity * loss;
    assert q.quantity * bound - q.quantity * loss == q.quantity * (bound - loss);
  }
}
