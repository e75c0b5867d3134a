/**
 The execution gateway: instrument specs, order submission and cancellation through the
 shared lane, and the fills and updates it hands to the core. What the venue answers is
 a parameter of each operation; clock readings are too.
 */
module ExecutionGateway {
  import opened Common
  import opened Conversion
  import opened FillLedger
  import opened OrderLane
  import opened PriceGrid

  // ---- instrument specs ----

  /** One contract as the venue describes it. */
  datatype ContractDetail = ContractDetail(symbol: string, contractSize: real, volUnit: int, minVol: int, maxVol: int,
                                           priceUnit: real, pricePrecision: int)

  datatype InstrumentSpec = InstrumentSpec(symbol: string, tickSize: real, qtyStep: real, minQty: real, maxQty: real)

  /** The spec cache and the last-known parameters per symbol. */
  datatype Specs = Specs(cache: map<string, InstrumentSpec>, contractSize: map<string, real>,
                         priceDecimals: map<string, nat>, tickSize: map<string, real>, volUnit: map<string, int>)

  function ContractSizeFor(s: Specs, symbol: string): real {
    if symbol in s.contractSize then s.contractSize[symbol] else 0.0
  }

  function PriceDecimalsFor(s: Specs, symbol: string): nat {
    if symbol in s.priceDecimals then s.priceDecimals[symbol] else 2
  }

  function TickFor(s: Specs, symbol: string): real {
    if symbol in s.tickSize then s.tickSize[symbol] else 0.0
  }

  function VolUnitFor(s: Specs, symbol: string): int {
    if symbol in s.volUnit then s.volUnit[symbol] else 1
  }

  function SizeOf(d: ContractDetail): real { if d.contractSize > 0.0 then d.contractSize else 1.0 }

  function SpecOf(d: ContractDetail): InstrumentSpec {
    InstrumentSpec(d.symbol, d.priceUnit, Multiple(d.volUnit, SizeOf(d)), Multiple(d.minVol, SizeOf(d)), Multiple(d.maxVol, SizeOf(d)))
  }

  /** The cache entry and the parameters of a symbol are written together. */
  function Learn(s: Specs, d: ContractDetail): Specs {
    Specs(s.cache[d.symbol := SpecOf(d)], s.contractSize[d.symbol := SizeOf(d)],
          s.priceDecimals[d.symbol := if d.pricePrecision > 0 then d.pricePrecision else Decimals(d.priceUnit)],
          s.tickSize[d.symbol := d.priceUnit],
          s.volUnit[d.symbol := if d.volUnit > 0 then d.volUnit else 1])
  }

  /** Dropping entries keeps the last-known parameters. */
  function Forget(s: Specs, symbol: string): Specs { s.(cache := s.cache - {symbol}) }

  function ForgetAll(s: Specs): Specs { s.(cache := map[]) }

  function FirstDetail(details: seq<ContractDetail>, symbol: string): Option<ContractDetail> {
    if details == [] then None
    else if details[0].symbol == symbol then Some(details[0])
    else FirstDetail(details[1..], symbol)
  }

  /** What a lookup leaves behind: a cached spec is used as it is; None is a failed request. */
  function Looked(s: Specs, symbol: string, answer: Option<seq<ContractDetail>>): Specs {
    if symbol in s.cache || answer.None? then s
    else
      var found := FirstDetail(answer.value, symbol);
      if found.Some? then Learn(s, found.value) else s
  }

  /** Sizes and units are positive, all parameters of a symbol are known together, and a cached spec describes the parameters in use. */
  ghost predicate InSync(s: Specs) {
    && (forall x :: x in s.contractSize ==> s.contractSize[x] > 0.0)
    && (forall x :: x in s.volUnit ==> s.volUnit[x] >= 1)
    && s.contractSize.Keys == s.volUnit.Keys == s.tickSize.Keys == s.priceDecimals.Keys
    && (forall x :: x in s.cache ==>
          && x in s.contractSize && x in s.volUnit && x in s.tickSize && x in s.priceDecimals
          && s.cache[x].tickSize == s.tickSize[x]
          && (s.cache[x].qtyStep > 0.0 ==> s.cache[x].qtyStep == QtyStep(s.contractSize[x], s.volUnit[x])))
  }

  /** A spec says of a contract what the venue says, in base units; a contract without a size counts as one unit. */
  ghost predicate Describes(spec: InstrumentSpec, d: ContractDetail) {
    && spec.symbol == d.symbol && spec.tickSize == d.priceUnit
    && (if d.contractSize > 0.0 then
          && spec.qtyStep == d.volUnit as real * d.contractSize
          && spec.minQty == d.minVol as real * d.contractSize && spec.maxQty == d.maxVol as real * d.contractSize
        else
          spec.qtyStep == d.volUnit as real && spec.minQty == d.minVol as real && spec.maxQty == d.maxVol as real)
  }

  /** The parameters in use for a symbol are the contract's; no other symbol was touched. */
  ghost predicate InUse(before: Specs, s: Specs, d: ContractDetail) {
    && d.symbol in s.cache && Describes(s.cache[d.symbol], d)
    && d.symbol in s.contractSize && s.contractSize[d.symbol] == (if d.contractSize > 0.0 then d.contractSize else 1.0)
    && d.symbol in s.volUnit && s.volUnit[d.symbol] == (if d.volUnit > 0 then d.volUnit else 1)
    && d.symbol in s.tickSize && s.tickSize[d.symbol] == d.priceUnit
    && d.symbol in s.priceDecimals && (d.pricePrecision > 0 ==> s.priceDecimals[d.symbol] == d.pricePrecision)
    && (d.pricePrecision <= 0 ==> s.priceDecimals[d.symbol] == Decimals(d.priceUnit))
    && s.cache - {d.symbol} == before.cache - {d.symbol} && s.contractSize - {d.symbol} == before.contractSize - {d.symbol}
    && s.volUnit - {d.symbol} == before.volUnit - {d.symbol} && s.tickSize - {d.symbol} == before.tickSize - {d.symbol}
    && s.priceDecimals - {d.symbol} == before.priceDecimals - {d.symbol}
  }

  lemma LearnPutsInUse(s: Specs, d: ContractDetail)
    ensures InUse(s, Learn(s, d), d)
  {
    LearnDescribes(d);
    hide Describes, SpecOf, Decimals;
  }

  lemma LearnDescribes(d: ContractDetail)
    ensures Describes(SpecOf(d), d)
  {
  }

  /** The first contract of the answer with the symbol, if there is one. */
  ghost predicate FirstMatch(answer: seq<ContractDetail>, symbol: string, i: int) {
    0 <= i < |answer| && answer[i].symbol == symbol && forall j :: 0 <= j < i ==> answer[j].symbol != symbol
  }

  lemma {:induction false} FirstDetailIs(details: seq<ContractDetail>, symbol: string)
    ensures var d := FirstDetail(details, symbol);
      && (d.None? <==> forall i :: 0 <= i < |details| ==> details[i].symbol != symbol)
      && (d.Some? ==> exists i :: FirstMatch(details, symbol, i) && details[i] == d.value)
  {
    if details != [] && details[0].symbol != symbol {
      FirstDetailIs(details[1..], symbol);
      var d := FirstDetail(details, symbol);
      if d.Some? {
        var i :| FirstMatch(details[1..], symbol, i) && details[1..][i] == d.value;
        assert FirstMatch(details, symbol, i + 1) && details[i + 1] == d.value;
      } else {
        forall i | 0 <= i < |details|
          ensures details[i].symbol != symbol
        {
          if i > 0 {
            assert details[1..][i - 1].symbol != symbol;
          }
        }
      }
    } else if details != [] {
      assert FirstMatch(details, symbol, 0);
    }
  }

  /** A symbol that is not cached: the first matching contract is put in use, or nothing changes. */
  ghost predicate Answered(before: Specs, s: Specs, symbol: string, answer: Option<seq<ContractDetail>>) {
    if answer.Some? && exists i :: 0 <= i < |answer.value| && answer.value[i].symbol == symbol then
      exists i :: FirstMatch(answer.value, symbol, i) && InUse(before, s, answer.value[i])
    else
      s == before
  }

  lemma LookedAnswers(s: Specs, symbol: string, answer: Option<seq<ContractDetail>>)
    requires symbol !in s.cache
    ensures Answered(s, Looked(s, symbol, answer), symbol, answer)
  {
    hide InUse, Learn;
    if answer.Some? {
      FirstDetailIs(answer.value, symbol);
      var d := FirstDetail(answer.value, symbol);
      if d.Some? {
        LearnPutsInUse(s, d.value);
        var i :| FirstMatch(answer.value, symbol, i) && answer.value[i] == d.value;
        assert answer.value[i].symbol == symbol;
        assert FirstMatch(answer.value, symbol, i) && InUse(s, Looked(s, symbol, answer), answer.value[i]);
      }
    }
  }

  lemma PositiveStep(volUnit: int, size: real)
    requires size > 0.0 && Multiple(volUnit, size) > 0.0
    ensures volUnit > 0
  {
    if volUnit <= 0 {
      MulMonotone(volUnit as real, 0.0, size);
    }
  }

  lemma LearnKeepsSync(s: Specs, d: ContractDetail)
    requires InSync(s)
    ensures InSync(Learn(s, d))
  {
    hide Decimals, Multiple, QtyStep;
    StepInSync(d);
  }

  lemma StepInSync(d: ContractDetail)
    ensures SpecOf(d).qtyStep > 0.0 ==> d.volUnit > 0 && SpecOf(d).qtyStep == QtyStep(SizeOf(d), d.volUnit)
  {
    if SpecOf(d).qtyStep > 0.0 {
      PositiveStep(d.volUnit, SizeOf(d));
    }
  }

  lemma LookedKeepsSync(s: Specs, symbol: string, answer: Option<seq<ContractDetail>>)
    requires InSync(s)
    ensures InSync(Looked(s, symbol, answer)) && InSync(Forget(s, symbol)) && InSync(ForgetAll(s))
  {
    hide Learn;
    ForgetKeepsSync(s, symbol);
    hide InSync;
    if symbol !in s.cache && answer.Some? && FirstDetail(answer.value, symbol).Some? {
      LearnKeepsSync(s, FirstDetail(answer.value, symbol).value);
    }
  }

  lemma ForgetKeepsSync(s: Specs, symbol: string)
    requires InSync(s)
    ensures InSync(Forget(s, symbol)) && InSync(ForgetAll(s))
  {
    hide QtyStep;
  }

  /** The venue gives a tick in multiples of 10^-8, and no scale or one fine enough for that tick. */
  ghost predicate GoodTick(d: ContractDetail) {
    exists n :: n > 0 && d.priceUnit == Tick(n) && (d.pricePrecision > 0 ==> d.pricePrecision >= Decimals(Tick(n)))
  }

  /** Prices of the symbol are snapped to a tick that the decimals kept can express. */
  ghost predicate OnTick(s: Specs, symbol: string) {
    exists n :: n > 0 && TickFor(s, symbol) == Tick(n) && PriceDecimalsFor(s, symbol) >= Decimals(Tick(n))
  }

  lemma LearnGivesTick(s: Specs, d: ContractDetail)
    requires GoodTick(d)
    ensures OnTick(Learn(s, d), d.symbol)
  {
    hide Decimals, Tick;
    var n :| n > 0 && d.priceUnit == Tick(n) && (d.pricePrecision > 0 ==> d.pricePrecision >= Decimals(Tick(n)));
    assert TickFor(Learn(s, d), d.symbol) == Tick(n);
    assert PriceDecimalsFor(Learn(s, d), d.symbol) >= Decimals(Tick(n));
  }

  // ---- orders ----

  datatype Side = Buy | Sell
  datatype MexcSide = OpenLong | CloseShort | OpenShort | CloseLong
  datatype OrderType = PostOnly | Market

  datatype OrderRequest = OrderRequest(symbol: string, price: real, vol: int, side: MexcSide, orderType: OrderType, externalOid: string)

  function ToMexcSide(side: Side, reduceOnly: bool): MexcSide {
    match side
    case Buy => if reduceOnly then CloseShort else OpenLong
    case Sell => if reduceOnly then CloseLong else OpenShort
  }

  /** The request for a post-only limit order; None is a hard reject made without asking the venue. */
  function LimitRequest(s: Specs, oid: string, symbol: string, side: Side, qty: real, price: real, reduceOnly: bool): Option<OrderRequest>
    requires InSync(s)
  {
    var cs := ContractSizeFor(s, symbol);
    if cs <= 0.0 then None
    else
      var vol := Contracts(qty, cs, VolUnitFor(s, symbol));
      if vol <= 0 then None
      else Some(OrderRequest(symbol, SubmittedPrice(price, TickFor(s, symbol), PriceDecimalsFor(s, symbol)), vol,
                             ToMexcSide(side, reduceOnly), PostOnly, oid))
  }

  function MarketRequest(s: Specs, oid: string, symbol: string, side: Side, qty: real): Option<OrderRequest>
    requires InSync(s)
  {
    var cs := ContractSizeFor(s, symbol);
    if cs <= 0.0 then None
    else
      var vol := Contracts(qty, cs, VolUnitFor(s, symbol));
      if vol <= 0 then None else Some(OrderRequest(symbol, 0.0, vol, ToMexcSide(side, true), Market, oid))
  }

  /** Carrying out an order on this side makes the account longer: it opens a long or closes a short. */
  predicate Lengthens(side: MexcSide) { side.OpenLong? || side.CloseShort? }

  /** The order can only take a position down. */
  predicate Reduces(side: MexcSide) { side.CloseShort? || side.CloseLong? }

  /** A request is what the caller asked for: a buy lengthens, a sell shortens, reduce-only reduces. */
  ghost predicate AsAsked(r: OrderRequest, oid: string, symbol: string, side: Side, reduceOnly: bool, orderType: OrderType) {
    && r.symbol == symbol && r.externalOid == oid && r.orderType == orderType
    && (Lengthens(r.side) <==> side.Buy?) && (Reduces(r.side) <==> reduceOnly)
  }

  lemma RequestsAsAsked(s: Specs, oid: string, symbol: string, side: Side, qty: real, price: real, reduceOnly: bool)
    requires InSync(s)
    ensures var limit, market := LimitRequest(s, oid, symbol, side, qty, price, reduceOnly), MarketRequest(s, oid, symbol, side, qty);
      && (limit.Some? ==> AsAsked(limit.value, oid, symbol, side, reduceOnly, PostOnly))
      && (market.Some? ==> AsAsked(market.value, oid, symbol, side, true, Market) && market.value.price == 0.0)
  {
    hide Contracts, SubmittedPrice, InSync;
  }

  /**
   Every order that reaches the venue has a positive volume that is a whole number of
   units, less than one unit below the rounded quantity and, for units below 10^9, not above it.
   */
  lemma OrdersOnGrid(s: Specs, oid: string, symbol: string, side: Side, qty: real, price: real, reduceOnly: bool)
    requires InSync(s)
    ensures var limit, market := LimitRequest(s, oid, symbol, side, qty, price, reduceOnly), MarketRequest(s, oid, symbol, side, qty);
      && (limit.Some? <==> market.Some?)
      && (limit.Some? ==>
            var vol, u, rounded := limit.value.vol, VolUnitFor(s, symbol), Round(qty / ContractSizeFor(s, symbol));
            && market.value.vol == vol > 0 && vol % u == 0 && rounded - vol < u && (u < 1_000_000_000 ==> vol <= rounded))
  {
    var cs, u := ContractSizeFor(s, symbol), VolUnitFor(s, symbol);
    hide Contracts, Round, SubmittedPrice;
    if cs > 0.0 {
      VolumeOnGrid(qty, cs, u);
      if u < 1_000_000_000 {
        NeverTips(Round(qty / cs), u);
      }
    }
  }

  /** A quantity of k steps of the cached spec becomes exactly the contracts it is worth, and a full fill credits it back. */
  lemma CachedStepsConvert(s: Specs, oid: string, symbol: string, side: Side, k: int, price: real, reduceOnly: bool)
    requires InSync(s) && symbol in s.cache && s.cache[symbol].qtyStep > 0.0 && k >= 1
    ensures var qty := Multiple(k, s.cache[symbol].qtyStep);
      var limit := LimitRequest(s, oid, symbol, side, qty, price, reduceOnly);
      && limit.Some? && limit.value.vol == k * VolUnitFor(s, symbol)
      && Base(limit.value.vol as real, EffectiveSize(s.contractSize, symbol)) == qty
  {
    var cs, u := s.contractSize[symbol], s.volUnit[symbol];
    StepsConvert(k, cs, u);
    StepValue(k, cs, u);
    AtLeastOne(k, u);
    hide Contracts, SubmittedPrice, QtyStep;
    assert Base((k * u) as real, cs) == Multiple(k * u, cs);
  }

  /** A limit price is on the tick, at most half a tick off, once the venue's tick is known. */
  lemma LimitPriceOnTick(s: Specs, oid: string, symbol: string, side: Side, qty: real, price: real, reduceOnly: bool)
    requires InSync(s) && OnTick(s, symbol)
    ensures var limit := LimitRequest(s, oid, symbol, side, qty, price, reduceOnly); var tick := TickFor(s, symbol);
      limit.Some? ==>
        && tick > 0.0 && limit.value.price == Multiple(Round(price / tick), tick)
        && -0.5 * tick <= limit.value.price - price <= 0.5 * tick
        && LimitRequest(s, oid, symbol, side, qty, limit.value.price, reduceOnly) == limit
  {
    hide Decimals, Tick, SubmittedPrice, Contracts, Round, Multiple;
    var n :| n > 0 && TickFor(s, symbol) == Tick(n) && PriceDecimalsFor(s, symbol) >= Decimals(Tick(n));
    TickPositive(n);
    SnappedPrice(price, n, PriceDecimalsFor(s, symbol));
  }

  // ---- what the venue answers, what the caller gets ----

  /** An error answer, classified by its text. */
  datatype RestAnswer = Confirmed | Denied(kind: RejectKind, gone: bool, precision: bool)

  datatype QueryAnswer = Found(detail: OrderDetail) | QueryFailed

  datatype Outcome = Returned(done: bool) | Thrown(kind: RejectKind)

  datatype Delivery = FillOut(fill: Fill) | UpdateOut(update: OrderUpdate)

  function EndingOf(answer: RestAnswer): Ending {
    if answer.Confirmed? then Succeeded else if answer.kind.Throttled? then Ending.Throttled else Failed
  }

  /** A cancel of an order that is gone is not a failure of the lane, nor a success. */
  function CancelEnding(answer: RestAnswer): Ending {
    if answer.Denied? && answer.gone then Failed else EndingOf(answer)
  }

  /** The lane hears of a success, of a throttle, or of neither; a cancel that finds the order gone is neither. */
  ghost predicate Hears(answer: RestAnswer, cancel: bool, ending: Ending) {
    && (ending.Succeeded? <==> answer.Confirmed?)
    && (ending.Throttled? <==> answer.Denied? && answer.kind.Throttled? && !(cancel && answer.gone))
  }

  lemma EndingsHeard(answer: RestAnswer)
    ensures Hears(answer, false, EndingOf(answer)) && Hears(answer, true, CancelEnding(answer))
  {
  }

  /** One more request has ended on the lane, and this is what the lane was told of it. */
  ghost predicate EndedWith(before: Lane, after: Lane, answer: RestAnswer, cancel: bool) {
    |after.endings| == |before.endings| + 1 && Hears(answer, cancel, after.endings[|before.endings|]) && !after.held
  }

  lemma RequestEnded(before: Lane, now: int, ending: Ending, later: int, answer: RestAnswer, cancel: bool)
    requires Hears(answer, cancel, ending)
    ensures EndedWith(before, Finish(Acquire(before, now), ending, later), answer, cancel)
  {
    hide Cooldown;
  }

  function FillsOut(fill: Option<Fill>): seq<Delivery> {
    if fill.Some? then [FillOut(fill.value)] else []
  }

  function UpdatesOut(update: Option<OrderUpdate>): seq<Delivery> {
    if update.Some? then [UpdateOut(update.value)] else []
  }

  /** The consumer of everything delivered. */
  function ConsumeAll(ds: seq<Delivery>): Consumer {
    if ds == [] then Consumer({}, map[])
    else
      var before := ConsumeAll(ds[..|ds| - 1]);
      if ds[|ds| - 1].FillOut? then Consume(before, Some(ds[|ds| - 1].fill)) else before
  }

  lemma ConsumeFills(ds: seq<Delivery>, fill: Option<Fill>)
    ensures ConsumeAll(ds + FillsOut(fill)) == Consume(ConsumeAll(ds), fill)
  {
    hide Consume;
    if fill.Some? {
      assert (ds + FillsOut(fill))[..|ds|] == ds;
    } else {
      assert ds + FillsOut(fill) == ds;
      NoFill(ConsumeAll(ds));
    }
  }

  lemma NoFill(c: Consumer)
    ensures Consume(c, None) == c
  {
  }

  lemma ConsumeUpdates(ds: seq<Delivery>, update: Option<OrderUpdate>)
    ensures ConsumeAll(ds + UpdatesOut(update)) == ConsumeAll(ds)
  {
    hide Consume;
    if update.Some? {
      assert (ds + UpdatesOut(update))[..|ds|] == ds;
    } else {
      assert ds + UpdatesOut(update) == ds;
    }
  }

  /** What one report makes the gateway deliver, with both callbacks set: fill first, then update. */
  function DeliveriesOf(b: Books, sizes: map<string, real>, report: Report): seq<Delivery> {
    if !report.Ours() then []
    else
      FillsOut(Emitted(b, sizes, report))
      + (if report.FromChannel? then UpdatesOut(UpdateOf(report.event, EffectiveSize(sizes, report.Symbol()))) else [])
  }

  /** Everything the core has been told after the reports. */
  function DeliveredBy(sizes: map<string, real>, reports: seq<Report>): seq<Delivery> {
    if reports == [] then []
    else
      var front := reports[..|reports| - 1];
      DeliveredBy(sizes, front) + DeliveriesOf(ProcessAll(sizes, front), sizes, reports[|reports| - 1])
  }

  lemma DeliveriesFeed(ds: seq<Delivery>, b: Books, sizes: map<string, real>, report: Report)
    requires ConsumeAll(ds) == b.consumer
    ensures ConsumeAll(ds + DeliveriesOf(b, sizes, report)) == Process(b, sizes, report).consumer
    ensures report.Ours() ==> ConsumeAll(ds + FillsOut(Emitted(b, sizes, report))) == Process(b, sizes, report).consumer
  {
    hide ConsumeAll, Consume, Emitted, UpdateOf, FillsOut, UpdatesOut;
    if report.Ours() {
      var fill := Emitted(b, sizes, report);
      ConsumeFills(ds, fill);
      if report.FromChannel? {
        var update := UpdateOf(report.event, EffectiveSize(sizes, report.Symbol()));
        ConsumeUpdates(ds + FillsOut(fill), update);
        assert ds + (FillsOut(fill) + UpdatesOut(update)) == ds + FillsOut(fill) + UpdatesOut(update);
      } else {
        assert FillsOut(fill) + [] == FillsOut(fill);
      }
    } else {
      assert ds + [] == ds;
    }
  }

  /** The stream of deliveries alone rebuilds the consumer of the books. */
  lemma {:induction false} StreamFeedsConsumer(sizes: map<string, real>, reports: seq<Report>)
    ensures ConsumeAll(DeliveredBy(sizes, reports)) == ProcessAll(sizes, reports).consumer
  {
    hide Process, DeliveriesOf;
    if reports != [] {
      var k := |reports| - 1;
      StreamFeedsConsumer(sizes, reports[..k]);
      DeliveriesFeed(DeliveredBy(sizes, reports[..k]), ProcessAll(sizes, reports[..k]), sizes, reports[k]);
    }
  }

  /**
   In the stream the core sees, an update comes last for its event, and what the core has
   accepted from the stream before it already covers the volume the update reports. An
   update that ends the order leaves no entry for it in the table; Accepted keeps a claim.
   */
  lemma UpdateAfterItsFills(sizes: map<string, real>, symbolOf: int -> string, front: seq<Report>, e: OrderEvent)
    requires OneSymbol(symbolOf, front + [FromChannel(e)])
    requires e.externalOid != "" && UpdateOf(e, EffectiveSize(sizes, e.symbol)).Some?
    ensures var update := UpdateOf(e, EffectiveSize(sizes, e.symbol)).value;
      var before := DeliveredBy(sizes, front) + FillsOut(Emitted(ProcessAll(sizes, front), sizes, FromChannel(e)));
      var accounts := ProcessAll(sizes, front + [FromChannel(e)]).accounts;
      && DeliveredBy(sizes, front + [FromChannel(e)]) == before + [UpdateOut(update)]
      && update.cumFilledQty <= AcceptedQty(ConsumeAll(before), e.orderId)
      && (!update.state.Accepted? ==> e.orderId !in accounts)
      && (update.state.Accepted? && e.dealVol > 0.0 ==> e.orderId in accounts)
  {
    hide *;
    var report := FromChannel(e);
    StreamStep(sizes, front, report);
    UpdateDelivered(ProcessAll(sizes, front), sizes, e);
    EndedMeansDropped(ProcessAll(sizes, front), sizes, e);
    StreamFeedsConsumer(sizes, front);
    DeliveriesFeed(DeliveredBy(sizes, front), ProcessAll(sizes, front), sizes, report);
    LastCovered(sizes, symbolOf, front, e);
    assert DeliveredBy(sizes, front) + (FillsOut(Emitted(ProcessAll(sizes, front), sizes, report)) + [UpdateOut(UpdateOf(e, EffectiveSize(sizes, e.symbol)).value)])
        == DeliveredBy(sizes, front) + FillsOut(Emitted(ProcessAll(sizes, front), sizes, report)) + [UpdateOut(UpdateOf(e, EffectiveSize(sizes, e.symbol)).value)];
  }

  lemma StreamStep(sizes: map<string, real>, front: seq<Report>, report: Report)
    ensures DeliveredBy(sizes, front + [report]) == DeliveredBy(sizes, front) + DeliveriesOf(ProcessAll(sizes, front), sizes, report)
    ensures ProcessAll(sizes, front + [report]) == Process(ProcessAll(sizes, front), sizes, report)
  {
    hide Process, DeliveriesOf;
    assert (front + [report])[..|front|] == front;
  }

  lemma UpdateDelivered(b: Books, sizes: map<string, real>, e: OrderEvent)
    requires e.externalOid != "" && UpdateOf(e, EffectiveSize(sizes, e.symbol)).Some?
    ensures FromChannel(e).Ours()
    ensures DeliveriesOf(b, sizes, FromChannel(e))
         == FillsOut(Emitted(b, sizes, FromChannel(e))) + [UpdateOut(UpdateOf(e, EffectiveSize(sizes, e.symbol)).value)]
  {
    hide UpdateOf, Emitted, EffectiveSize, FillsOut;
  }

  lemma LastCovered(sizes: map<string, real>, symbolOf: int -> string, front: seq<Report>, e: OrderEvent)
    requires OneSymbol(symbolOf, front + [FromChannel(e)])
    requires e.externalOid != "" && UpdateOf(e, EffectiveSize(sizes, e.symbol)).Some?
    ensures UpdateOf(e, EffectiveSize(sizes, e.symbol)).value.cumFilledQty
         <= AcceptedQty(ProcessAll(sizes, front + [FromChannel(e)]).consumer, e.orderId)
  {
    hide ProcessAll, UpdateOf, EffectiveSize, AcceptedQty, OneSymbol;
    FillsPrecedeState(sizes, symbolOf, front + [FromChannel(e)]);
  }

  lemma EndedMeansDropped(b: Books, sizes: map<string, real>, e: OrderEvent)
    requires e.externalOid != "" && UpdateOf(e, EffectiveSize(sizes, e.symbol)).Some?
    ensures var update, accounts := UpdateOf(e, EffectiveSize(sizes, e.symbol)).value, Process(b, sizes, FromChannel(e)).accounts;
      && (!update.state.Accepted? ==> e.orderId !in accounts)
      && (update.state.Accepted? && e.dealVol > 0.0 ==> e.orderId in accounts)
  {
    TerminalIsTold(e, EffectiveSize(sizes, e.symbol));
    hide UpdateOf, EffectiveSize, Emitted, Consume;
  }

  /** What an event delivers: first the fill for a volume not accounted before, then the update for a known state. */
  ghost predicate Reported(ds: seq<Delivery>, fills: bool, updates: bool, e: OrderEvent, accounts: Accounts, sizes: map<string, real>) {
    var acc := if e.orderId in accounts then accounts[e.orderId] else 0.0;
    var filled := fills && e.dealVol > 0.0 && e.dealVol > acc;
    var told := updates && !e.state.Other?;
    && |ds| == (if filled then 1 else 0) + (if told then 1 else 0)
    && (filled ==> ds[0].FillOut? && Credits(DetailOf(e), e.externalOid, e.symbol, acc, sizes, ds[0].fill))
    && (told ==> ds[|ds| - 1].UpdateOut? && Tells(e, sizes, ds[|ds| - 1].update))
  }

  lemma ReportedAs(before: seq<Delivery>, fills: bool, updates: bool, e: OrderEvent, accounts: Accounts, sizes: map<string, real>)
    ensures var size := EffectiveSize(sizes, e.symbol);
      var fill := if fills then DealFill(accounts, size, e.externalOid, e.symbol, DetailOf(e)) else None;
      Reported((before + FillsOut(fill) + (if updates then UpdatesOut(UpdateOf(e, size)) else []))[|before|..], fills, updates, e, accounts, sizes)
  {
    FillCredits(accounts, sizes, e.externalOid, e.symbol, DetailOf(e));
    UpdateTells(e, sizes);
    hide DealFill, UpdateOf, EffectiveSize, Credits, Tells;
    var size := EffectiveSize(sizes, e.symbol);
    var fill := if fills then DealFill(accounts, size, e.externalOid, e.symbol, DetailOf(e)) else None;
    var update := if updates then UpdatesOut(UpdateOf(e, size)) else [];
    assert (before + FillsOut(fill) + update)[|before|..] == FillsOut(fill) + update;
  }

  /** What a reconciliation delivers: the fill for the volume REST reports beyond what was accounted. */
  ghost predicate Reconciled(ds: seq<Delivery>, clientOrderId: string, symbol: string, detail: OrderDetail, accounts: Accounts, sizes: map<string, real>) {
    var acc := if detail.orderId in accounts then accounts[detail.orderId] else 0.0;
    if detail.dealVol > 0.0 && detail.dealVol > acc then
      |ds| == 1 && ds[0].FillOut? && Credits(detail, clientOrderId, symbol, acc, sizes, ds[0].fill)
    else ds == []
  }

  lemma ReconciledAs(before: seq<Delivery>, clientOrderId: string, symbol: string, detail: OrderDetail, accounts: Accounts, sizes: map<string, real>)
    ensures var fill := DealFill(accounts, EffectiveSize(sizes, symbol), clientOrderId, symbol, detail);
      Reconciled((before + FillsOut(fill))[|before|..], clientOrderId, symbol, detail, accounts, sizes)
  {
    FillCredits(accounts, sizes, clientOrderId, symbol, detail);
    hide DealFill, EffectiveSize, Credits;
    var fill := DealFill(accounts, EffectiveSize(sizes, symbol), clientOrderId, symbol, detail);
    assert (before + FillsOut(fill))[|before|..] == FillsOut(fill);
  }

  class Gateway {
    const lane: SharedLane
    var fillCB: bool
    var orderUpdateCB: bool
    var accountedDealVol: Accounts
    var specCache: map<string, InstrumentSpec>
    var contractSize: map<string, real>
    var priceDecimals: map<string, nat>
    var tickSize: map<string, real>
    var volUnit: map<string, int>
    /** What the core was told and what the venue was sent, in order. */
    var delivered: seq<Delivery>
    var sent: seq<OrderRequest>
    ghost var books: Books

    ghost function SpecsNow(): Specs
      reads this
    {
      Specs(specCache, contractSize, priceDecimals, tickSize, volUnit)
    }

    /** The table of accounted volumes and the consumer of the fills delivered are those of the books. */
    ghost predicate Booked()
      reads this
    {
      books.accounts == accountedDealVol && books.consumer == ConsumeAll(delivered)
    }

    constructor (withFills: bool, withUpdates: bool)
      ensures Booked() && InSync(SpecsNow()) && fresh(lane) && lane.Abs() == Fresh()
      ensures delivered == [] && sent == [] && books == Opening()
      ensures fillCB == withFills && orderUpdateCB == withUpdates
    {
      lane := new SharedLane();
      fillCB, orderUpdateCB := withFills, withUpdates;
      accountedDealVol, delivered, sent := map[], [], [];
      specCache, contractSize, priceDecimals, tickSize, volUnit := map[], map[], map[], map[], map[];
      books := Opening();
    }

    // ---- fills ----

    /** operator[] makes a missing entry; a volume not above it is nothing new. */
    method NewlyFilled(orderId: int, cumDealVol: real) returns (inc: real)
      modifies this`accountedDealVol
      ensures inc == Increment(old(accountedDealVol), orderId, cumDealVol)
      ensures accountedDealVol == Claim(old(accountedDealVol), orderId, cumDealVol)
    {
      var acc := Accounted(accountedDealVol, orderId);
      if cumDealVol <= acc {
        accountedDealVol := accountedDealVol[orderId := acc];
        return 0.0;
      }
      inc := cumDealVol - acc;
      accountedDealVol := accountedDealVol[orderId := cumDealVol];
    }

    /** Claims what is new of a cumulative volume and delivers it as one fill: the path of channel and REST alike. */
    method Credit(clientOrderId: string, symbol: string, detail: OrderDetail)
      modifies this`accountedDealVol, this`delivered
      ensures accountedDealVol == ClaimDeal(old(accountedDealVol), detail.orderId, detail.dealVol)
      ensures delivered == old(delivered) + FillsOut(DealFill(old(accountedDealVol), EffectiveSize(contractSize, symbol), clientOrderId, symbol, detail))
    {
      if detail.dealVol <= 0.0 {
        return;
      }
      var cs := if symbol in contractSize then contractSize[symbol] else 0.0;
      var csEff := if cs > 0.0 then cs else 1.0;
      var inc := NewlyFilled(detail.orderId, detail.dealVol);
      if inc > 0.0 {
        var price := if detail.dealAvgPrice > 0.0 then detail.dealAvgPrice else detail.price;
        delivered := delivered + [FillOut(Fill(clientOrderId, symbol, FillId(detail.orderId, detail.dealVol), Base(inc, csEff), price))];
      }
    }

    /** The state part of an event: drops the entry of a finished order, then tells the update. */
    method TellState(e: OrderEvent)
      modifies this`accountedDealVol, this`delivered
      ensures accountedDealVol == (if Terminal(e.state) then old(accountedDealVol) - {e.orderId} else old(accountedDealVol))
      ensures delivered == old(delivered) + (if orderUpdateCB then UpdatesOut(UpdateOf(e, EffectiveSize(contractSize, e.symbol))) else [])
    {
      if e.state == Completed || e.state == Cancelled || e.state == Invalid {
        accountedDealVol := accountedDealVol - {e.orderId};
      }
      if !orderUpdateCB {
        return;
      }
      var state: ExecState;
      match e.state {
        case New | Uncompleted => state := ExecState.Accepted;
        case Completed => state := Filled;
        case Cancelled => state := if e.errorCode == 20 then Rejected(BenignPostOnlyCross) else CancelledState;
        case Invalid => state := Rejected(ClassifyErrorCode(e.errorCode));
        case Other => return;
      }
      var cs := if e.symbol in contractSize then contractSize[e.symbol] else 0.0;
      var csEff := if cs > 0.0 then cs else 1.0;
      delivered := delivered + [UpdateOut(OrderUpdate(e.externalOid, e.symbol, e.price, Base(e.dealVol, csEff), state))];
    }

    /**
     An event of the order channel. The fill goes out before the update, and both the
     table and the consumer move as the ledger says. Without a fill callback nothing is
     claimed, and only the entry of a finished order goes.
     */
    method OnOrderEvent(e: OrderEvent)
      requires Booked()
      modifies this`accountedDealVol, this`delivered, this`books
      ensures Booked()
      ensures fillCB ==> books == Process(old(books), contractSize, FromChannel(e))
      ensures !fillCB ==>
        && books == old(books).(accounts := accountedDealVol)
        && accountedDealVol == (if e.externalOid != "" && Terminal(e.state) then old(accountedDealVol) - {e.orderId} else old(accountedDealVol))
      ensures fillCB && orderUpdateCB ==> delivered == old(delivered) + DeliveriesOf(old(books), contractSize, FromChannel(e))
      ensures e.externalOid == "" ==> delivered == old(delivered)
      ensures e.externalOid != "" ==>
        delivered == old(delivered) + FillsOut(if fillCB then Emitted(old(books), contractSize, FromChannel(e)) else None)
                   + (if orderUpdateCB then UpdatesOut(UpdateOf(e, EffectiveSize(contractSize, e.symbol))) else [])
      ensures e.externalOid != "" ==>
        Reported(delivered[|old(delivered)|..], fillCB, orderUpdateCB, e, old(accountedDealVol), contractSize)
    {
      hide Reported;
      if e.externalOid == "" {
        return;
      }
      ReportedAs(delivered, fillCB, orderUpdateCB, e, accountedDealVol, contractSize);
      ghost var before := delivered;
      ghost var fill := if fillCB then Emitted(books, contractSize, FromChannel(e)) else None;
      if fillCB {
        Credit(e.externalOid, e.symbol, DetailOf(e));
      }
      ghost var middle := delivered;
      assert middle == before + FillsOut(fill);
      TellState(e);
      books := if fillCB then Process(books, contractSize, FromChannel(e)) else books.(accounts := accountedDealVol);
      ConsumeFills(before, fill);
      NoFill(ConsumeAll(before));
      ConsumeUpdates(middle, if orderUpdateCB then UpdateOf(e, EffectiveSize(contractSize, e.symbol)) else None);
    }

    /** REST truth for an order that is gone; a failed query changes nothing. */
    method ReconcileMissedFills(clientOrderId: string, symbol: string, query: QueryAnswer)
      requires Booked()
      modifies this`accountedDealVol, this`delivered, this`books
      ensures Booked()
      ensures !fillCB || query.QueryFailed? ==> books == old(books) && delivered == old(delivered)
      ensures fillCB && query.Found? ==>
        && books == Process(old(books), contractSize, FromRest(clientOrderId, symbol, query.detail))
        && delivered == old(delivered) + DeliveriesOf(old(books), contractSize, FromRest(clientOrderId, symbol, query.detail))
      ensures fillCB && query.Found? ==>
        Reconciled(delivered[|old(delivered)|..], clientOrderId, symbol, query.detail, old(accountedDealVol), contractSize)
    {
      hide Reconciled, ConsumeAll, Consume, FillsOut, EffectiveSize, DealFill, ClaimDeal;
      if query.Found? {
        ReconciledAs(delivered, clientOrderId, symbol, query.detail, accountedDealVol, contractSize);
      }
      if !fillCB || query.QueryFailed? {
        return;
      }
      ghost var report := FromRest(clientOrderId, symbol, query.detail);
      ghost var before := delivered;
      ghost var fill := Emitted(books, contractSize, report);
      Credit(clientOrderId, symbol, query.detail);
      books := Process(books, contractSize, report);
      ConsumeFills(before, fill);
    }

    // ---- specs ----

    method InstrumentSpecFor(symbol: string, answer: Option<seq<ContractDetail>>) returns (spec: Option<InstrumentSpec>)
      requires InSync(SpecsNow())
      modifies this`specCache, this`contractSize, this`priceDecimals, this`tickSize, this`volUnit
      ensures SpecsNow() == Looked(old(SpecsNow()), symbol, answer) && InSync(SpecsNow())
      ensures spec == (if symbol in specCache then Some(specCache[symbol]) else None)
      ensures symbol in old(specCache) ==> SpecsNow() == old(SpecsNow())
      ensures symbol !in old(specCache) ==> Answered(old(SpecsNow()), SpecsNow(), symbol, answer)
    {
      if symbol !in specCache {
        LookedAnswers(SpecsNow(), symbol, answer);
      }
      hide Answered;
      LookedKeepsSync(SpecsNow(), symbol, answer);
      hide InSync;
      if symbol in specCache {
        return Some(specCache[symbol]);
      }
      if answer.None? {
        return None;
      }
      var i := 0;
      while i < |answer.value| && answer.value[i].symbol != symbol
        invariant 0 <= i <= |answer.value|
        invariant FirstDetail(answer.value, symbol) == FirstDetail(answer.value[i..], symbol)
      {
        i := i + 1;
      }
      if i == |answer.value| {
        return None;
      }
      Store(answer.value[i]);
      spec := Some(specCache[symbol]);
    }

    method Store(detail: ContractDetail)
      modifies this`specCache, this`contractSize, this`priceDecimals, this`tickSize, this`volUnit
      ensures SpecsNow() == Learn(old(SpecsNow()), detail)
    {
      var cs := if detail.contractSize > 0.0 then detail.contractSize else 1.0;
      var spec := InstrumentSpec(detail.symbol, detail.priceUnit, Multiple(detail.volUnit, cs), Multiple(detail.minVol, cs), Multiple(detail.maxVol, cs));
      specCache := specCache[detail.symbol := spec];
      contractSize := contractSize[detail.symbol := cs];
      if detail.pricePrecision > 0 {
        priceDecimals := priceDecimals[detail.symbol := detail.pricePrecision];
      } else {
        var derived := DecimalsOf(detail.priceUnit);
        priceDecimals := priceDecimals[detail.symbol := derived];
      }
      tickSize := tickSize[detail.symbol := detail.priceUnit];
      volUnit := volUnit[detail.symbol := if detail.volUnit > 0 then detail.volUnit else 1];
    }

    method RefreshInstruments()
      requires InSync(SpecsNow())
      modifies this`specCache
      ensures SpecsNow() == ForgetAll(old(SpecsNow())) && InSync(SpecsNow())
      ensures specCache == map[] && contractSize == old(contractSize) && priceDecimals == old(priceDecimals)
      ensures tickSize == old(tickSize) && volUnit == old(volUnit)
    {
      LookedKeepsSync(SpecsNow(), "", None);
      specCache := map[];
    }

    /** After a precision reject the symbol's spec is fetched anew. */
    method RefetchSpecAfterPrecisionReject(symbol: string, precision: bool, answer: Option<seq<ContractDetail>>)
      requires InSync(SpecsNow())
      modifies this`specCache, this`contractSize, this`priceDecimals, this`tickSize, this`volUnit
      ensures InSync(SpecsNow())
      ensures SpecsNow() == (if precision then Looked(Forget(old(SpecsNow()), symbol), symbol, answer) else old(SpecsNow()))
      ensures !precision ==> SpecsNow() == old(SpecsNow())
      ensures precision ==> Answered(old(SpecsNow().(cache := specCache - {symbol})), SpecsNow(), symbol, answer)
    {
      hide Answered;
      if !precision {
        return;
      }
      LookedKeepsSync(SpecsNow(), symbol, answer);
      specCache := specCache - {symbol};
      var fetched := InstrumentSpecFor(symbol, answer);
    }

    // ---- orders ----

    /** base -> whole contracts -> whole units. */
    method VolumeFor(symbol: string, qty: real, cs: real) returns (vol: int)
      requires InSync(SpecsNow()) && cs > 0.0
      ensures vol == Contracts(qty, cs, VolUnitFor(SpecsNow(), symbol))
    {
      vol := Round(qty / cs);
      var vu := if symbol in volUnit then volUnit[symbol] else 1;
      if vu > 1 {
        vol := (vol as real / vu as real + 0.000000001).Floor * vu;
      }
    }

    /** One request through the lane: refused locally and never sent, or sent once with the lane held for the whole call. */
    method Send(request: OrderRequest, answer: RestAnswer, refetch: Option<seq<ContractDetail>>, now: int, later: int) returns (outcome: Outcome)
      requires InSync(SpecsNow())
      modifies this`sent, this`specCache, this`contractSize, this`priceDecimals, this`tickSize, this`volUnit, lane
      ensures InSync(SpecsNow())
      ensures OrderLane.Refused(old(lane.Abs()), now).Some? ==>
        outcome == Thrown(RejectKind.Throttled) && sent == old(sent) && SpecsNow() == old(SpecsNow()) && lane.Abs() == old(lane.Abs())
      ensures OrderLane.Refused(old(lane.Abs()), now).None? ==>
        && sent == old(sent) + [request]
        && lane.Abs() == Finish(Acquire(old(lane.Abs()), now), EndingOf(answer), later)
        && outcome == (if answer.Confirmed? then Returned(true) else Thrown(answer.kind))
        && SpecsNow() == (if answer.Denied? && answer.precision
                          then Looked(Forget(old(SpecsNow()), request.symbol), request.symbol, refetch) else old(SpecsNow()))
        && EndedWith(old(lane.Abs()), lane.Abs(), answer, false)
    {
      EndingsHeard(answer);
      RequestEnded(lane.Abs(), now, EndingOf(answer), later, answer, false);
      hide EndedWith, Finish, Acquire;
      var refusal := lane.TryAcquireLane(now);
      if refusal.Some? {
        return Thrown(RejectKind.Throttled);
      }
      sent := sent + [request];
      if answer.Denied? {
        RefetchSpecAfterPrecisionReject(request.symbol, answer.precision, refetch);
      }
      lane.EndRequest(EndingOf(answer), later);
      outcome := if answer.Confirmed? then Returned(true) else Thrown(answer.kind);
    }

    /** A quantity without a contract size or below one unit is refused before the lane is touched. */
    method SubmitPostOnlyLimit(oid: string, symbol: string, side: Side, qty: real, price: real, reduceOnly: bool,
                               answer: RestAnswer, refetch: Option<seq<ContractDetail>>, now: int, later: int)
      returns (outcome: Outcome)
      requires InSync(SpecsNow())
      modifies this`sent, this`specCache, this`contractSize, this`priceDecimals, this`tickSize, this`volUnit, lane
      ensures InSync(SpecsNow())
      ensures var request := LimitRequest(old(SpecsNow()), oid, symbol, side, qty, price, reduceOnly);
        && (request.None? ==> outcome == Thrown(Hard) && lane.Abs() == old(lane.Abs()))
        && (request.None? || OrderLane.Refused(old(lane.Abs()), now).Some? ==> sent == old(sent) && SpecsNow() == old(SpecsNow()))
        && (request.Some? && OrderLane.Refused(old(lane.Abs()), now).Some? ==>
              outcome == Thrown(RejectKind.Throttled) && lane.Abs() == old(lane.Abs()))
        && (request.Some? && OrderLane.Refused(old(lane.Abs()), now).None? ==>
              && sent == old(sent) + [request.value]
              && lane.Abs() == Finish(Acquire(old(lane.Abs()), now), EndingOf(answer), later)
              && outcome == (if answer.Confirmed? then Returned(true) else Thrown(answer.kind))
              && SpecsNow() == (if answer.Denied? && answer.precision
                                then Looked(Forget(old(SpecsNow()), symbol), symbol, refetch) else old(SpecsNow()))
              && EndedWith(old(lane.Abs()), lane.Abs(), answer, false)
              && AsAsked(sent[|sent| - 1], oid, symbol, side, reduceOnly, PostOnly))
    {
      RequestsAsAsked(SpecsNow(), oid, symbol, side, qty, price, reduceOnly);
      hide EndedWith, AsAsked;
      var cs := if symbol in contractSize then contractSize[symbol] else 0.0;
      if cs <= 0.0 {
        return Thrown(Hard);
      }
      var px := price;
      var tick := if symbol in tickSize then tickSize[symbol] else 0.0;
      if tick > 0.0 {
        px := Multiple(Round(px / tick), tick);
      }
      px := RoundToDecimals(px, if symbol in priceDecimals then priceDecimals[symbol] else 2);
      var vol := VolumeFor(symbol, qty, cs);
      if vol <= 0 {
        return Thrown(Hard);
      }
      outcome := Send(OrderRequest(symbol, px, vol, ToMexcSide(side, reduceOnly), PostOnly, oid), answer, refetch, now, later);
    }

    method SubmitReduceOnlyMarket(oid: string, symbol: string, side: Side, qty: real,
                                  answer: RestAnswer, refetch: Option<seq<ContractDetail>>, now: int, later: int)
      returns (outcome: Outcome)
      requires InSync(SpecsNow())
      modifies this`sent, this`specCache, this`contractSize, this`priceDecimals, this`tickSize, this`volUnit, lane
      ensures InSync(SpecsNow())
      ensures var request := MarketRequest(old(SpecsNow()), oid, symbol, side, qty);
        && (request.None? ==> outcome == Thrown(Hard) && lane.Abs() == old(lane.Abs()))
        && (request.None? || OrderLane.Refused(old(lane.Abs()), now).Some? ==> sent == old(sent) && SpecsNow() == old(SpecsNow()))
        && (request.Some? && OrderLane.Refused(old(lane.Abs()), now).Some? ==>
              outcome == Thrown(RejectKind.Throttled) && lane.Abs() == old(lane.Abs()))
        && (request.Some? && OrderLane.Refused(old(lane.Abs()), now).None? ==>
              && sent == old(sent) + [request.value]
              && lane.Abs() == Finish(Acquire(old(lane.Abs()), now), EndingOf(answer), later)
              && outcome == (if answer.Confirmed? then Returned(true) else Thrown(answer.kind))
              && SpecsNow() == (if answer.Denied? && answer.precision
                                then Looked(Forget(old(SpecsNow()), symbol), symbol, refetch) else old(SpecsNow()))
              && EndedWith(old(lane.Abs()), lane.Abs(), answer, false)
              && AsAsked(sent[|sent| - 1], oid, symbol, side, true, Market))
    {
      RequestsAsAsked(SpecsNow(), oid, symbol, side, qty, 0.0, true);
      hide EndedWith, AsAsked;
      var cs := if symbol in contractSize then contractSize[symbol] else 0.0;
      if cs <= 0.0 {
        return Thrown(Hard);
      }
      var vol := VolumeFor(symbol, qty, cs);
      if vol <= 0 {
        return Thrown(Hard);
      }
      outcome := Send(OrderRequest(symbol, 0.0, vol, ToMexcSide(side, true), Market, oid), answer, refetch, now, later);
    }

    /**
     A cancel that reports the order gone has first credited, with the lane held, what
     REST says was filled; only a failed query leaves the volume uncredited.
     */
    method Cancel(oid: string, symbol: string, answer: RestAnswer, query: QueryAnswer, now: int, later: int) returns (outcome: Outcome)
      requires Booked()
      modifies this`accountedDealVol, this`delivered, this`books, lane
      ensures Booked()
      ensures OrderLane.Refused(old(lane.Abs()), now).Some? ==>
        outcome == Thrown(RejectKind.Throttled) && lane.Abs() == old(lane.Abs()) && books == old(books) && delivered == old(delivered)
      ensures OrderLane.Refused(old(lane.Abs()), now).None? ==>
        && lane.Abs() == Finish(Acquire(old(lane.Abs()), now), CancelEnding(answer), later)
        && outcome == (if answer.Confirmed? then Returned(true) else if answer.gone then Returned(false) else Thrown(answer.kind))
        && EndedWith(old(lane.Abs()), lane.Abs(), answer, true)
      ensures outcome == Returned(false) && query.Found? && fillCB ==>
        && books == Process(old(books), contractSize, FromRest(oid, symbol, query.detail))
        && (query.detail.dealVol > 0.0 ==> Accounted(accountedDealVol, query.detail.orderId) >= query.detail.dealVol)
        && |delivered| >= |old(delivered)|
        && Reconciled(delivered[|old(delivered)|..], oid, symbol, query.detail, old(accountedDealVol), contractSize)
      ensures outcome != Returned(false) || query.QueryFailed? || !fillCB ==> books == old(books) && delivered == old(delivered)
    {
      EndingsHeard(answer);
      RequestEnded(lane.Abs(), now, CancelEnding(answer), later, answer, true);
      hide Reconciled, EndedWith, Finish, Acquire;
      var refusal := lane.TryAcquireLane(now);
      if refusal.Some? {
        return Thrown(RejectKind.Throttled);
      }
      if answer.Confirmed? {
        lane.EndRequest(Succeeded, later);
        return Returned(true);
      }
      if answer.gone {
        ReconcileMissedFills(oid, symbol, query);
        lane.EndRequest(Failed, later);
        return Returned(false);
      }
      lane.EndRequest(if answer.kind.Throttled? then Ending.Throttled else Failed, later);
      outcome := Thrown(answer.kind);
    }
  }
}
