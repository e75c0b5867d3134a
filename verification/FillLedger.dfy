/**
 Fill accounting from cumulative volumes. The gateway turns the cumulative filled
 volume of an order, seen on the order channel or in a REST answer, into fill events;
 a consumer drops the ones whose fillId it has seen. Volumes are exact.
 */
module FillLedger {
  import opened Common

  /** "orderId-dealVol": one id per cumulative volume of an order. */
  datatype FillId = FillId(orderId: int, dealVol: real)

  datatype Fill = Fill(clientOrderId: string, symbol: string, fillId: FillId, qty: real, price: real)

  /** Order states of the private channel; Other is any code outside 1..5. */
  datatype VenueState = New | Uncompleted | Completed | Cancelled | Invalid | Other

  datatype OrderEvent = OrderEvent(symbol: string, externalOid: string, orderId: int, state: VenueState,
                                   price: real, dealVol: real, dealAvgPrice: real, errorCode: int)

  /** What REST reports of one order. */
  datatype OrderDetail = OrderDetail(orderId: int, price: real, dealVol: real, dealAvgPrice: real)

  type Accounts = map<int, real>

  function Accounted(accounts: Accounts, orderId: int): real {
    if orderId in accounts then accounts[orderId] else 0.0
  }

  /** The contract size used for a symbol: 1 when none is known yet. */
  function EffectiveSize(contractSize: map<string, real>, symbol: string): (r: real)
    ensures r > 0.0
  {
    if symbol in contractSize && contractSize[symbol] > 0.0 then contractSize[symbol] else 1.0
  }

  /** A volume in contracts as a quantity in base units. */
  function Base(volume: real, size: real): real { volume * size }

  predicate Terminal(state: VenueState) {
    state.Completed? || state.Cancelled? || state.Invalid?
  }

  // ---- claiming a cumulative volume ----

  /** newlyFilled: the volume not accounted before; the lookup itself creates a missing entry. */
  function Increment(accounts: Accounts, orderId: int, cumDealVol: real): real {
    if cumDealVol <= Accounted(accounts, orderId) then 0.0 else cumDealVol - Accounted(accounts, orderId)
  }

  function Claim(accounts: Accounts, orderId: int, cumDealVol: real): Accounts {
    accounts[orderId := if cumDealVol <= Accounted(accounts, orderId) then Accounted(accounts, orderId) else cumDealVol]
  }

  /** The claim that both the order channel and the REST reconciliation make: nothing for an order without a deal. */
  function ClaimDeal(accounts: Accounts, orderId: int, dealVol: real): Accounts {
    if dealVol > 0.0 then Claim(accounts, orderId, dealVol) else accounts
  }

  function DealFill(accounts: Accounts, size: real, clientOrderId: string, symbol: string, detail: OrderDetail): Option<Fill> {
    var inc := Increment(accounts, detail.orderId, detail.dealVol);
    if detail.dealVol > 0.0 && inc > 0.0 then
      Some(Fill(clientOrderId, symbol, FillId(detail.orderId, detail.dealVol), Base(inc, size),
                if detail.dealAvgPrice > 0.0 then detail.dealAvgPrice else detail.price))
    else None
  }

  // ---- the order update that follows ----

  datatype RejectKind = Throttled | PositionClosed | BenignPostOnlyCross | MinNotional | Permanent | Hard

  datatype ExecState = Accepted | Filled | CancelledState | Rejected(kind: RejectKind)

  datatype OrderUpdate = OrderUpdate(clientOrderId: string, symbol: string, price: real, cumFilledQty: real, state: ExecState)

  /** The numeric error codes of the private order channel. */
  function ClassifyErrorCode(code: int): RejectKind {
    if code == 20 then BenignPostOnlyCross
    else if code == 3 then PositionClosed
    else if code == 7 || code == 6002 then Permanent
    else Hard
  }

  /** The update delivered for an event; an unknown state delivers none. */
  function UpdateOf(e: OrderEvent, size: real): Option<OrderUpdate> {
    var state :=
      match e.state
      case New => Some(Accepted)
      case Uncompleted => Some(Accepted)
      case Completed => Some(Filled)
      case Cancelled => Some(if e.errorCode == 20 then Rejected(BenignPostOnlyCross) else CancelledState)
      case Invalid => Some(Rejected(ClassifyErrorCode(e.errorCode)))
      case Other => None;
    if state.None? then None
    else Some(OrderUpdate(e.externalOid, e.symbol, e.price, Base(e.dealVol, size), state.value))
  }

  /** The events that drop an order's entry are exactly those whose update ends the order for the core. */
  lemma TerminalIsTold(e: OrderEvent, size: real)
    ensures Terminal(e.state) <==> UpdateOf(e, size).Some? && !UpdateOf(e, size).value.state.Accepted?
    ensures UpdateOf(e, size).Some? ==>
      (UpdateOf(e, size).value.state == Rejected(BenignPostOnlyCross) <==> e.state in {Cancelled, Invalid} && e.errorCode == 20)
  {
  }

  /** An update says of an event what the core needs to know, field by field. */
  ghost predicate Tells(e: OrderEvent, sizes: map<string, real>, u: OrderUpdate) {
    && u.clientOrderId == e.externalOid && u.symbol == e.symbol && u.price == e.price
    && u.cumFilledQty == (if e.symbol in sizes && sizes[e.symbol] > 0.0 then e.dealVol * sizes[e.symbol] else e.dealVol)
    && (u.state.Accepted? <==> e.state.New? || e.state.Uncompleted?)
    && (u.state.Filled? <==> e.state.Completed?)
    && (u.state.CancelledState? <==> e.state.Cancelled? && e.errorCode != 20)
    && (u.state.Rejected? <==> e.state.Invalid? || (e.state.Cancelled? && e.errorCode == 20))
    && (u.state.Rejected? ==>
          && (u.state.kind.BenignPostOnlyCross? <==> e.errorCode == 20)
          && (u.state.kind.PositionClosed? <==> e.errorCode == 3)
          && (u.state.kind.Permanent? <==> e.errorCode == 7 || e.errorCode == 6002)
          && (u.state.kind.Hard? <==> e.errorCode !in {3, 7, 20, 6002}))
  }

  /** Every known state is told, as it is; an unknown one is not told. */
  lemma UpdateTells(e: OrderEvent, sizes: map<string, real>)
    ensures var update := UpdateOf(e, EffectiveSize(sizes, e.symbol));
      (update.Some? <==> !e.state.Other?) && (update.Some? ==> Tells(e, sizes, update.value))
  {
  }

  /** A fill carries the volume not accounted before, in base units, at the average deal price if there is one. */
  ghost predicate Credits(detail: OrderDetail, clientOrderId: string, symbol: string, accounted: real, sizes: map<string, real>, f: Fill) {
    && f.clientOrderId == clientOrderId && f.symbol == symbol
    && f.fillId == FillId(detail.orderId, detail.dealVol)
    && f.qty == (if symbol in sizes && sizes[symbol] > 0.0 then (detail.dealVol - accounted) * sizes[symbol] else detail.dealVol - accounted)
    && (if detail.dealAvgPrice > 0.0 then f.price == detail.dealAvgPrice else f.price == detail.price)
  }

  lemma FillCredits(accounts: Accounts, sizes: map<string, real>, clientOrderId: string, symbol: string, detail: OrderDetail)
    ensures var fill := DealFill(accounts, EffectiveSize(sizes, symbol), clientOrderId, symbol, detail);
      var acc := if detail.orderId in accounts then accounts[detail.orderId] else 0.0;
      && (fill.Some? <==> detail.dealVol > 0.0 && detail.dealVol > acc)
      && (fill.Some? ==> Credits(detail, clientOrderId, symbol, acc, sizes, fill.value))
  {
  }

  // ---- the consumer ----

  /** A consumer that drops fills whose id it has seen, and the accepted quantity per order. */
  datatype Consumer = Consumer(seen: set<FillId>, accepted: map<int, real>)

  function AcceptedQty(c: Consumer, orderId: int): real {
    if orderId in c.accepted then c.accepted[orderId] else 0.0
  }

  function Consume(c: Consumer, fill: Option<Fill>): Consumer {
    if fill.None? || fill.value.fillId in c.seen then c
    else
      var id := fill.value.fillId;
      Consumer(c.seen + {id}, c.accepted[id.orderId := AcceptedQty(c, id.orderId) + fill.value.qty])
  }

  // ---- whole histories ----

  /** One report of an order that reaches the fill path: from the order channel, or from REST. */
  datatype Report =
    | FromChannel(event: OrderEvent)
    | FromRest(clientOrderId: string, symbol: string, detail: OrderDetail)
  {
    function OrderId(): int { if FromChannel? then event.orderId else detail.orderId }
    function DealVol(): real { if FromChannel? then event.dealVol else detail.dealVol }
    function Symbol(): string { if FromChannel? then event.symbol else symbol }
    /** Channel events without a client order id are not ours. */
    predicate Ours() { FromChannel? ==> event.externalOid != "" }
    predicate Ends() { FromChannel? && Terminal(event.state) }
  }

  function DetailOf(e: OrderEvent): OrderDetail {
    OrderDetail(e.orderId, e.price, e.dealVol, e.dealAvgPrice)
  }

  /** The gateway's table, the consumer, and what has been reported so far. */
  datatype Books = Books(accounts: Accounts, consumer: Consumer, high: map<int, real>, ended: set<int>)

  function Opening(): Books { Books(map[], Consumer({}, map[]), map[], {}) }

  /** The highest cumulative volume processed for an order. */
  function High(b: Books, orderId: int): real {
    if orderId in b.high then b.high[orderId] else 0.0
  }

  /** The fill a report emits (a fill callback is set). */
  function Emitted(b: Books, sizes: map<string, real>, report: Report): Option<Fill> {
    match report
    case FromChannel(e) => DealFill(b.accounts, EffectiveSize(sizes, e.symbol), e.externalOid, e.symbol, DetailOf(e))
    case FromRest(oid, symbol, detail) => DealFill(b.accounts, EffectiveSize(sizes, symbol), oid, symbol, detail)
  }

  function AccountsAfter(accounts: Accounts, report: Report): Accounts {
    var claimed := ClaimDeal(accounts, report.OrderId(), report.DealVol());
    if report.Ends() then claimed - {report.OrderId()} else claimed
  }

  function Process(b: Books, sizes: map<string, real>, report: Report): Books {
    if !report.Ours() then b
    else
      var o := report.OrderId();
      Books(AccountsAfter(b.accounts, report),
            Consume(b.consumer, Emitted(b, sizes, report)),
            if report.DealVol() > High(b, o) then b.high[o := report.DealVol()] else b.high,
            if report.Ends() then b.ended + {o} else b.ended)
  }

  function ProcessAll(sizes: map<string, real>, reports: seq<Report>): Books {
    if reports == [] then Opening()
    else Process(ProcessAll(sizes, reports[..|reports| - 1]), sizes, reports[|reports| - 1])
  }

  /** Facts about one order that hold on every history whatever the venue repeats. */
  ghost predicate Sound(b: Books, o: int) {
    && 0.0 <= Accounted(b.accounts, o) <= High(b, o)
    && (forall v :: FillId(o, v) in b.consumer.seen ==> 0.0 < v <= High(b, o))
    && (High(b, o) > 0.0 ==> FillId(o, High(b, o)) in b.consumer.seen)
    && (o !in b.ended ==> Accounted(b.accounts, o) == High(b, o))
  }

  lemma SoundStep(b: Books, sizes: map<string, real>, report: Report, o: int)
    requires Sound(b, o)
    ensures Sound(Process(b, sizes, report), o)
  {
    if report.Ours() && report.OrderId() == o {
      var v, acc := report.DealVol(), Accounted(b.accounts, o);
      var t := Process(b, sizes, report);
      if v > 0.0 && v > acc {
        assert Emitted(b, sizes, report).Some?;
      }
    }
  }

  /** Accepted fills of the order add up to the highest volume processed, in base units. */
  ghost predicate Conserved(b: Books, size: real, o: int) {
    AcceptedQty(b.consumer, o) == Base(High(b, o), size)
  }

  /**
   The one way to overcount: the order's entry has been dropped at a terminal event
   (so less is accounted than was processed) and a volume arrives whose fillId the
   consumer has never seen.
   */
  predicate Overcounts(b: Books, report: Report) {
    var o, v := report.OrderId(), report.DealVol();
    && report.Ours() && v > 0.0
    && Accounted(b.accounts, o) < High(b, o)
    && v > Accounted(b.accounts, o)
    && FillId(o, v) !in b.consumer.seen
  }

  /** Crediting v - acc on top of high lands on the new highest volume exactly when acc is high. */
  lemma CreditLands(acc: real, high: real, v: real, size: real)
    requires acc <= high && acc < v && size > 0.0
    ensures Base(high, size) + Base(v - acc, size) == Base(if v > high then v else high, size) <==> acc == high
  {
    assert high * size + (v - acc) * size == (high + v - acc) * size;
    MulMonotone(high + v - acc, if v > high then v else high, size);
  }

  /** A report keeps the books balanced exactly when it does not overcount. */
  lemma ConservedStep(b: Books, sizes: map<string, real>, report: Report)
    requires var o := report.OrderId();
      Sound(b, o) && Conserved(b, EffectiveSize(sizes, report.Symbol()), o)
    ensures var o, size := report.OrderId(), EffectiveSize(sizes, report.Symbol());
      Conserved(Process(b, sizes, report), size, o) <==> !Overcounts(b, report)
  {
    var o, v := report.OrderId(), report.DealVol();
    var size := EffectiveSize(sizes, report.Symbol());
    var acc, high := Accounted(b.accounts, o), High(b, o);
    if report.Ours() && v > 0.0 && v > acc && FillId(o, v) !in b.consumer.seen {
      Credited(b, sizes, report);
      hide Process, Emitted, Base, Sound;
      CreditLands(acc, high, v, size);
    } else {
      Uncredited(b, sizes, report);
      hide Process, Emitted, Sound, Base;
    }
  }

  lemma Uncredited(b: Books, sizes: map<string, real>, report: Report)
    requires var o, v := report.OrderId(), report.DealVol();
      Sound(b, o) && !(report.Ours() && v > 0.0 && v > Accounted(b.accounts, o) && FillId(o, v) !in b.consumer.seen)
    ensures var o, t := report.OrderId(), Process(b, sizes, report);
      AcceptedQty(t.consumer, o) == AcceptedQty(b.consumer, o) && High(t, o) == High(b, o)
  {
    hide Base;
  }

  lemma Credited(b: Books, sizes: map<string, real>, report: Report)
    requires var o, v := report.OrderId(), report.DealVol();
      report.Ours() && v > 0.0 && v > Accounted(b.accounts, o) && FillId(o, v) !in b.consumer.seen
    ensures var o, v, t := report.OrderId(), report.DealVol(), Process(b, sizes, report);
      && AcceptedQty(t.consumer, o) == AcceptedQty(b.consumer, o) + Base(v - Accounted(b.accounts, o), EffectiveSize(sizes, report.Symbol()))
      && High(t, o) == (if v > High(b, o) then v else High(b, o))
  {
  }

  lemma OtherOrderUntouched(b: Books, sizes: map<string, real>, report: Report, o: int)
    requires report.OrderId() != o
    ensures var t := Process(b, sizes, report);
      && AcceptedQty(t.consumer, o) == AcceptedQty(b.consumer, o) && High(t, o) == High(b, o)
      && Accounted(t.accounts, o) == Accounted(b.accounts, o)
  {
  }

  /** Every report of an order names the order's symbol. */
  ghost predicate OneSymbol(symbolOf: int -> string, reports: seq<Report>) {
    forall i :: 0 <= i < |reports| && reports[i].Ours() ==> reports[i].Symbol() == symbolOf(reports[i].OrderId())
  }

  /** No report of the order overcounts when it arrives. */
  ghost predicate NeverOvercounts(sizes: map<string, real>, reports: seq<Report>, o: int) {
    forall i :: 0 <= i < |reports| && reports[i].OrderId() == o ==> !Overcounts(ProcessAll(sizes, reports[..i]), reports[i])
  }

  /** The order's books balance after every report. */
  ghost predicate ConservedThroughout(sizes: map<string, real>, reports: seq<Report>, size: real, o: int) {
    forall k :: 0 <= k <= |reports| ==> Conserved(ProcessAll(sizes, reports[..k]), size, o)
  }

  lemma {:induction false} SoundAlways(sizes: map<string, real>, reports: seq<Report>, o: int)
    ensures Sound(ProcessAll(sizes, reports), o)
  {
    if reports != [] {
      SoundAlways(sizes, reports[..|reports| - 1], o);
      SoundStep(ProcessAll(sizes, reports[..|reports| - 1]), sizes, reports[|reports| - 1], o);
    }
  }

  /** A report of an order keeps that order's books balanced exactly when it does not overcount; others leave them alone. */
  lemma ConservedNext(b: Books, sizes: map<string, real>, symbol: string, report: Report, o: int)
    requires Sound(b, o) && Conserved(b, EffectiveSize(sizes, symbol), o)
    requires report.Ours() && report.OrderId() == o ==> report.Symbol() == symbol
    ensures Conserved(Process(b, sizes, report), EffectiveSize(sizes, symbol), o)
       <==> report.OrderId() != o || !Overcounts(b, report)
  {
    if report.OrderId() != o {
      OtherOrderUntouched(b, sizes, report, o);
      hide Process, EffectiveSize;
    } else if report.Ours() {
      hide Process, EffectiveSize, Overcounts, Conserved, Sound;
      ConservedStep(b, sizes, report);
    }
  }

  lemma ThroughoutSplits(sizes: map<string, real>, reports: seq<Report>, size: real, o: int)
    requires reports != []
    ensures var front := reports[..|reports| - 1];
      ConservedThroughout(sizes, reports, size, o) <==>
      ConservedThroughout(sizes, front, size, o) && Conserved(ProcessAll(sizes, reports), size, o)
  {
    hide ProcessAll, Conserved;
    var n := |reports| - 1;
    var front := reports[..n];
    assert reports[..n + 1] == reports;
    assert forall k :: 0 <= k <= n ==> front[..k] == reports[..k];
    if ConservedThroughout(sizes, front, size, o) && Conserved(ProcessAll(sizes, reports), size, o) {
      forall k | 0 <= k <= |reports|
        ensures Conserved(ProcessAll(sizes, reports[..k]), size, o)
      {
        if k <= n {
          assert front[..k] == reports[..k];
        }
      }
    }
    if ConservedThroughout(sizes, reports, size, o) {
      forall k | 0 <= k <= n
        ensures Conserved(ProcessAll(sizes, front[..k]), size, o)
      {
        assert front[..k] == reports[..k];
      }
    }
  }

  lemma OvercountsSplit(sizes: map<string, real>, reports: seq<Report>, o: int)
    requires reports != []
    ensures var n := |reports| - 1;
      NeverOvercounts(sizes, reports, o) <==>
      NeverOvercounts(sizes, reports[..n], o)
      && (reports[n].OrderId() == o ==> !Overcounts(ProcessAll(sizes, reports[..n]), reports[n]))
  {
    hide ProcessAll, Overcounts;
    var n := |reports| - 1;
    var front := reports[..n];
    assert forall i :: 0 <= i < n ==> front[..i] == reports[..i] && front[i] == reports[i];
    if NeverOvercounts(sizes, reports, o) {
      forall i | 0 <= i < n && front[i].OrderId() == o
        ensures !Overcounts(ProcessAll(sizes, front[..i]), front[i])
      {
        assert reports[i].OrderId() == o;
      }
    }
    if NeverOvercounts(sizes, front, o) && (reports[n].OrderId() == o ==> !Overcounts(ProcessAll(sizes, front), reports[n])) {
      forall i | 0 <= i < |reports| && reports[i].OrderId() == o
        ensures !Overcounts(ProcessAll(sizes, reports[..i]), reports[i])
      {
        if i < n {
          assert front[i].OrderId() == o;
        }
      }
    }
  }

  /**
   Fill conservation, exactly. Through duplicates, lost events, entries dropped at terminal
   events and REST reconciliation, the fills a consumer accepts for an order add up, after
   every report, to the highest cumulative volume processed for it times the contract size,
   if and only if no report of the order overcounts.
   */
  lemma {:induction false} FillConservation(sizes: map<string, real>, symbolOf: int -> string, reports: seq<Report>, o: int)
    requires OneSymbol(symbolOf, reports)
    ensures ConservedThroughout(sizes, reports, EffectiveSize(sizes, symbolOf(o)), o) <==> NeverOvercounts(sizes, reports, o)
  {
    hide Process, EffectiveSize, Overcounts, Sound;
    var size := EffectiveSize(sizes, symbolOf(o));
    if reports == [] {
      NothingAccepted(size, o);
    } else {
      var n := |reports| - 1;
      var front := reports[..n];
      FillConservation(sizes, symbolOf, front, o);
      ThroughoutSplits(sizes, reports, size, o);
      OvercountsSplit(sizes, reports, o);
      SoundAlways(sizes, front, o);
      assert front[..n] == front;
      assert ConservedThroughout(sizes, front, size, o) ==> Conserved(ProcessAll(sizes, front), size, o);
      if Conserved(ProcessAll(sizes, front), size, o) {
        ConservedNext(ProcessAll(sizes, front), sizes, symbolOf(o), reports[n], o);
      }
    }
  }

  lemma NothingAccepted(size: real, o: int)
    ensures Conserved(Opening(), size, o)
  {
  }

  /** Once an order has ended, the venue only repeats volumes already reported for it. */
  ghost predicate RepeatsOnly(sizes: map<string, real>, reports: seq<Report>) {
    forall i :: 0 <= i < |reports| && reports[i].Ours() ==>
      var r, b := reports[i], ProcessAll(sizes, reports[..i]);
      r.OrderId() in b.ended ==> r.DealVol() <= 0.0 || FillId(r.OrderId(), r.DealVol()) in b.consumer.seen
  }

  /** A venue that only repeats itself after the end of an order keeps every order's books balanced. */
  lemma RepeatingVenueConserves(sizes: map<string, real>, symbolOf: int -> string, reports: seq<Report>, o: int)
    requires OneSymbol(symbolOf, reports) && RepeatsOnly(sizes, reports)
    ensures Conserved(ProcessAll(sizes, reports), EffectiveSize(sizes, symbolOf(o)), o)
  {
    hide ProcessAll, EffectiveSize;
    forall i | 0 <= i < |reports| && reports[i].OrderId() == o
      ensures !Overcounts(ProcessAll(sizes, reports[..i]), reports[i])
    {
      SoundAlways(sizes, reports[..i], o);
    }
    FillConservation(sizes, symbolOf, reports, o);
    assert reports[..|reports|] == reports;
    hide Sound, Overcounts;
  }

  // ---- fills precede state ----

  /** The order's accepted fills reach the highest volume processed, if not more. */
  ghost predicate Covered(b: Books, size: real, o: int) {
    Base(High(b, o), size) <= AcceptedQty(b.consumer, o)
  }

  /** Crediting v - acc on top of what covers high covers the new highest volume, whatever was dropped. */
  lemma CreditCovers(accepted: real, acc: real, high: real, v: real, size: real)
    requires acc <= high && acc < v && size > 0.0 && Base(high, size) <= accepted
    ensures Base(if v > high then v else high, size) <= accepted + Base(v - acc, size)
  {
    assert high * size + (v - acc) * size == (high + v - acc) * size;
    MulMonotone(if v > high then v else high, high + v - acc, size);
  }

  lemma CoveredStep(b: Books, sizes: map<string, real>, symbol: string, report: Report, o: int)
    requires Sound(b, o) && Covered(b, EffectiveSize(sizes, symbol), o)
    requires report.Ours() && report.OrderId() == o ==> report.Symbol() == symbol
    ensures Covered(Process(b, sizes, report), EffectiveSize(sizes, symbol), o)
  {
    var v, acc, high := report.DealVol(), Accounted(b.accounts, o), High(b, o);
    if report.OrderId() != o {
      OtherOrderUntouched(b, sizes, report, o);
      hide Process, EffectiveSize;
    } else if report.Ours() && v > 0.0 && v > acc && FillId(o, v) !in b.consumer.seen {
      Credited(b, sizes, report);
      hide Process, EffectiveSize, Base;
      CreditCovers(AcceptedQty(b.consumer, o), acc, high, v, EffectiveSize(sizes, symbol));
    } else {
      Uncredited(b, sizes, report);
      hide Process, EffectiveSize, Base;
    }
  }

  lemma {:induction false} CoveredAlways(sizes: map<string, real>, symbolOf: int -> string, reports: seq<Report>, o: int)
    requires OneSymbol(symbolOf, reports)
    ensures Covered(ProcessAll(sizes, reports), EffectiveSize(sizes, symbolOf(o)), o)
  {
    hide Process, EffectiveSize, Sound, Covered;
    if reports == [] {
      NothingCovered(EffectiveSize(sizes, symbolOf(o)), o);
    } else {
      var n := |reports| - 1;
      CoveredAlways(sizes, symbolOf, reports[..n], o);
      SoundAlways(sizes, reports[..n], o);
      CoveredStep(ProcessAll(sizes, reports[..n]), sizes, symbolOf(o), reports[n], o);
    }
  }

  lemma NothingCovered(size: real, o: int)
    ensures Covered(Opening(), size, o)
  {
  }

  /**
   Fills precede state, whatever the venue repeats or reveals late: when an order update
   goes out, or cancel has reconciled an order that is gone, the consumer has already
   accepted at least the reported volume.
   */
  lemma FillsPrecedeState(sizes: map<string, real>, symbolOf: int -> string, reports: seq<Report>)
    requires OneSymbol(symbolOf, reports)
    requires reports != [] && reports[|reports| - 1].Ours()
    ensures var last := reports[|reports| - 1];
      var size, accepted := EffectiveSize(sizes, last.Symbol()), AcceptedQty(ProcessAll(sizes, reports).consumer, last.OrderId());
      && Base(last.DealVol(), size) <= accepted
      && (last.FromChannel? && UpdateOf(last.event, size).Some? ==> UpdateOf(last.event, size).value.cumFilledQty <= accepted)
  {
    var last, after := reports[|reports| - 1], ProcessAll(sizes, reports);
    CoveredAlways(sizes, symbolOf, reports, last.OrderId());
    assert last.Symbol() == symbolOf(last.OrderId());
    HighCovers(ProcessAll(sizes, reports[..|reports| - 1]), sizes, last);
    ReportCovered(after, EffectiveSize(sizes, last.Symbol()), last.OrderId(), last.DealVol());
    hide ProcessAll, Process, Emitted, Base, OneSymbol, EffectiveSize, AcceptedQty, Covered, High;
  }

  lemma ReportCovered(b: Books, size: real, o: int, v: real)
    requires Covered(b, size, o) && v <= High(b, o) && size > 0.0
    ensures Base(v, size) <= AcceptedQty(b.consumer, o)
  {
    MulMonotone(v, High(b, o), size);
  }

  lemma HighCovers(b: Books, sizes: map<string, real>, report: Report)
    requires report.Ours()
    ensures report.DealVol() <= High(Process(b, sizes, report), report.OrderId())
  {
  }

  /**
   Without the assumption the books can drift: an order fills 3, then 5 and completes,
   a report of 3 was lost, and a late 3 arrives: it is credited a second time.
   */
  lemma LateUnseenVolumeOvercounts()
    ensures exists reports: seq<Report> :: |reports| == 2 && reports[0].Ends() && !Conserved(ProcessAll(map[], reports), 1.0, 7)
  {
    var e5 := OrderEvent("S", "c", 7, Completed, 1.0, 5.0, 1.0, 0);
    var e3 := e5.(dealVol := 3.0, state := Uncompleted);
    var none: map<string, real> := map[];
    var r := [FromChannel(e5), FromChannel(e3)];
    assert r[..1] == [FromChannel(e5)];
    assert r[..1][..0] == [];
    assert ProcessAll(none, r[..1][..0]) == Opening();
    var b1 := ProcessAll(none, r[..1]);
    assert b1 == Process(Opening(), none, FromChannel(e5));
    assert b1.accounts == map[] && AcceptedQty(b1.consumer, 7) == 5.0 && b1.consumer.seen == {FillId(7, 5.0)};
    var b2 := ProcessAll(none, r);
    assert b2 == Process(b1, none, FromChannel(e3));
    assert AcceptedQty(b2.consumer, 7) == 8.0 && High(b2, 7) == 5.0;
  }
}
