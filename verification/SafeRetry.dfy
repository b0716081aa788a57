/** The live adapter: submit, look up, submit again, and the two legs of a hedge. */
module SafeRetry {
  import opened Options
  import opened Lists
  import opened Audit
  import opened Execution

  // ---- the exchange, as unreliable as it likes --------------------------------------------

  datatype PlacedOrder = PlacedOrder(leg: Leg, clientOrderId: string)

  datatype OrderPayload = OrderPayload(status: Option<string>, orderId: OrderRef)

  datatype ErrorBody = NotJson | NoCode | CodeNumber(number: int) | CodeText(text: string)

  datatype HttpFailure = TransportError | StatusError(statusCode: int, body: ErrorBody)

  datatype Reply = Answer(payload: OrderPayload) | HttpError(failure: HttpFailure) | OtherFailure(text: string)

  /** What becomes of one submission: an answer means the order was taken, a failure may
      come before or after. */
  datatype SubmitFate =
    | Taken(payload: OrderPayload)
    | TakenThenFails(failure: Reply)
    | FailsBefore(failure: Reply)

  /** What becomes of one lookup: a truthful answer, a failure, or an answer out of thin air. */
  datatype LookupFate = Truthful(payload: OrderPayload) | LookupFails(failure: Reply) | Invented(payload: OrderPayload)

  datatype Venue = Venue(orders: seq<PlacedOrder>, submits: seq<SubmitFate>, lookups: seq<LookupFate>)

  datatype Exchanged = Exchanged(venue: Venue, reply: Reply)

  /** A failure fate never carries an answer. */
  function AsFailure(reply: Reply): Reply
  {
    if reply.Answer? then HttpError(TransportError) else reply
  }

  function Rest<T>(s: seq<T>): seq<T>
  {
    if s == [] then [] else s[1..]
  }

  const NOT_FOUND := HttpError(StatusError(404, NoCode))

  function Submit(v: Venue, order: PlacedOrder): Exchanged
  {
    var fate := if v.submits == [] then FailsBefore(HttpError(TransportError)) else v.submits[0];
    var later := v.(submits := Rest(v.submits));
    match fate
    case Taken(payload) => Exchanged(later.(orders := v.orders + [order]), Answer(payload))
    case TakenThenFails(failure) => Exchanged(later.(orders := v.orders + [order]), AsFailure(failure))
    case FailsBefore(failure) => Exchanged(later, AsFailure(failure))
  }

  function Lookup(v: Venue, order: PlacedOrder): Exchanged
  {
    var fate := if v.lookups == [] then LookupFails(HttpError(TransportError)) else v.lookups[0];
    var later := v.(lookups := Rest(v.lookups));
    match fate
    case Truthful(payload) => Exchanged(later, if order in v.orders then Answer(payload) else NOT_FOUND)
    case LookupFails(failure) => Exchanged(later, AsFailure(failure))
    case Invented(payload) => Exchanged(later, Answer(payload))
  }

  /** Status 404, or the exchange's own code for an unknown order. */
  predicate IsOrderNotFound(failure: HttpFailure)
  {
    && failure.StatusError?
    && (failure.statusCode == 404 || failure.body == CodeNumber(-2013) || failure.body == CodeText("-2013"))
  }

  function SafeSubmit(v: Venue, order: PlacedOrder): Exchanged
  {
    var first := Submit(v, order);
    if !first.reply.HttpError? then first
    else
      var found := Lookup(first.venue, order);
      match found.reply
      case Answer(_) => found
      case HttpError(failure) => if IsOrderNotFound(failure) then Submit(found.venue, order)
          else found.(reply := first.reply)
      case OtherFailure(_) => found
  }

  // ---- the adapter's calls -------------------------------------------------------------------

  function NormalizeStatus(payload: OrderPayload): LegStatus
  {
    var status := Lower(if payload.status.Some? then payload.status.value else "submitted");
    if status == "filled" then Filled
    else if status == "partially_filled" then Partial
    else if status in {"rejected", "expired", "canceled"} then LegFailed
    else Submitted
  }

  function Report(leg: Leg, payload: OrderPayload): LegReport
  {
    LegReport(leg, NormalizeStatus(payload), Payload(None, None, None, payload.orderId, None))
  }

  datatype HedgeCall = HedgeCall(venue: Venue, outcome: Outcome<seq<LegReport>>)

  function ErrorOf(reply: Reply): Error
  {
    OtherError(if reply.OtherFailure? then reply.text else "exchange request failed")
  }

  function SpotOrder(tradeId: string, action: Action): PlacedOrder
  {
    PlacedOrder(SpotLeg, tradeId + if action == OpenHedge then "-spot-open" else "-spot-close")
  }

  function PerpOrder(tradeId: string, action: Action): PlacedOrder
  {
    PlacedOrder(PerpLeg, tradeId + if action == OpenHedge then "-perp-open" else "-perp-close")
  }

  function RebalanceOrder(tradeId: string): PlacedOrder
  {
    PlacedOrder(PerpLeg, tradeId + "-perp-rebalance")
  }

  predicate Positive(quantity: Option<real>)
  {
    quantity.Some? && quantity.value > 0.0
  }

  predicate Orderable(request: ExecutionIntentRequest)
  {
    Positive(request.perpQuantity)
    && if request.action == OpenHedge then request.spotNotional > 0.0 else Positive(request.spotQuantity)
  }

  /** Open or close: the spot order first, then the perp order. */
  function PlaceHedge(v: Venue, request: ExecutionIntentRequest): HedgeCall
  {
    if !Orderable(request) then HedgeCall(v, Raised(ValueError("live order without quantity")))
    else
      var spot := SafeSubmit(v, SpotOrder(request.tradeId, request.action));
      if !spot.reply.Answer? then HedgeCall(spot.venue, Raised(ErrorOf(spot.reply)))
      else
        var perp := SafeSubmit(spot.venue, PerpOrder(request.tradeId, request.action));
        if !perp.reply.Answer? then HedgeCall(perp.venue, Raised(ErrorOf(perp.reply)))
        else HedgeCall(perp.venue, Returned([Report(SpotLeg, spot.reply.payload), Report(PerpLeg, perp.reply.payload)]))
  }

  function RebalancePerp(v: Venue, tradeId: string, quantity: real): HedgeCall
  {
    if quantity <= 0.0 then HedgeCall(v, Raised(ValueError("live rebalance without quantity")))
    else
      var perp := SafeSubmit(v, RebalanceOrder(tradeId));
      HedgeCall(perp.venue,
                if perp.reply.Answer? then Returned([Report(PerpLeg, perp.reply.payload)])
                else Raised(ErrorOf(perp.reply)))
  }

  /** The exchange behind the trading client. */
  class TradingClient {
    var orders: seq<PlacedOrder>
    var submits: seq<SubmitFate>
    var lookups: seq<LookupFate>

    constructor (orders: seq<PlacedOrder>, submits: seq<SubmitFate>, lookups: seq<LookupFate>)
      ensures State() == Venue(orders, submits, lookups)
    {
      this.orders := orders;
      this.submits := submits;
      this.lookups := lookups;
    }

    ghost function State(): Venue
      reads this
    {
      Venue(orders, submits, lookups)
    }

    method PlaceOrder(order: PlacedOrder) returns (reply: Reply)
      modifies this
      ensures Exchanged(State(), reply) == Submit(old(State()), order)
    {
      var fate := if submits == [] then FailsBefore(HttpError(TransportError)) else submits[0];
      submits := Rest(submits);
      match fate {
        case Taken(payload) =>
          orders := orders + [order];
          reply := Answer(payload);
        case TakenThenFails(failure) =>
          orders := orders + [order];
          reply := AsFailure(failure);
        case FailsBefore(failure) =>
          reply := AsFailure(failure);
      }
    }

    method GetOrder(order: PlacedOrder) returns (reply: Reply)
      modifies this
      ensures Exchanged(State(), reply) == Lookup(old(State()), order)
    {
      var fate := if lookups == [] then LookupFails(HttpError(TransportError)) else lookups[0];
      lookups := Rest(lookups);
      match fate {
        case Truthful(payload) => reply := if order in orders then Answer(payload) else NOT_FOUND;
        case LookupFails(failure) => reply := AsFailure(failure);
        case Invented(payload) => reply := Answer(payload);
      }
    }
  }

  class BinanceLiveExecutionAdapter {
    const client: TradingClient

    constructor (client: TradingClient)
      ensures this.client == client
    {
      this.client := client;
    }

    method SubmitWithSafeRetry(order: PlacedOrder) returns (reply: Reply)
      modifies client
      ensures Exchanged(client.State(), reply) == SafeSubmit(old(client.State()), order)
    {
      var first := client.PlaceOrder(order);
      if !first.HttpError? {
        return first;
      }
      var found := client.GetOrder(order);
      match found {
        case Answer(_) => reply := found;
        case HttpError(failure) =>
          if IsOrderNotFound(failure) {
            reply := client.PlaceOrder(order);
          } else {
            reply := first;
          }
        case OtherFailure(_) => reply := found;
      }
    }

    /** `open_hedge` and `close_hedge`: they differ in the orders they place. */
    method Hedge(request: ExecutionIntentRequest) returns (outcome: Outcome<seq<LegReport>>)
      modifies client
      ensures HedgeCall(client.State(), outcome) == PlaceHedge(old(client.State()), request)
    {
      hide SafeSubmit, NormalizeStatus;
      if !Orderable(request) {
        return Raised(ValueError("live order without quantity"));
      }
      var spot := SubmitWithSafeRetry(SpotOrder(request.tradeId, request.action));
      if !spot.Answer? {
        return Raised(ErrorOf(spot));
      }
      var perp := SubmitWithSafeRetry(PerpOrder(request.tradeId, request.action));
      if !perp.Answer? {
        return Raised(ErrorOf(perp));
      }
      return Returned([Report(SpotLeg, spot.payload), Report(PerpLeg, perp.payload)]);
    }

    method Rebalance(tradeId: string, quantity: real) returns (outcome: Outcome<seq<LegReport>>)
      modifies client
      ensures HedgeCall(client.State(), outcome) == RebalancePerp(old(client.State()), tradeId, quantity)
    {
      hide SafeSubmit, NormalizeStatus;
      if quantity <= 0.0 {
        return Raised(ValueError("live rebalance without quantity"));
      }
      var perp := SubmitWithSafeRetry(RebalanceOrder(tradeId));
      return if perp.Answer? then Returned([Report(PerpLeg, perp.payload)]) else Raised(ErrorOf(perp));
    }
  }

  // ---- how many orders a safe retry places ------------------------------------------------------

  /** Lookups that never deny an order that is there nor invent one that is not. */
  predicate Honest(lookups: seq<LookupFate>)
  {
    forall fate :: fate in lookups ==>
      && !fate.Invented?
      && (fate.LookupFails? && fate.failure.HttpError? ==> !IsOrderNotFound(fate.failure.failure))
  }

  /** With honest lookups one call places at most one order, whatever fails before or after
      acceptance; and an answer means that an order with the id is there. */
  lemma AtMostOneOrder(v: Venue, order: PlacedOrder)
    requires Honest(v.lookups)
    ensures var done := SafeSubmit(v, order);
            && (done.venue.orders == v.orders || done.venue.orders == v.orders + [order])
            && (done.reply.Answer? ==> order in done.venue.orders)
            && Honest(done.venue.lookups)
  {
  }

  /** Under an id that has not been used, a normal return means exactly one order. */
  lemma ExactlyOneWhenItReturns(v: Venue, order: PlacedOrder)
    requires Honest(v.lookups) && order !in v.orders
    ensures var done := SafeSubmit(v, order);
            && multiset(done.venue.orders)[order] <= 1
            && (done.reply.Answer? ==>
                multiset(done.venue.orders)[order] == 1 && done.venue.orders == v.orders + [order])
  {
    AtMostOneOrder(v, order);
    assert order !in multiset(v.orders);
  }

  /** The exchange takes the order and the client sees an HTTP error. */
  predicate TakenUnseen(fate: SubmitFate)
  {
    fate.TakenThenFails? && AsFailure(fate.failure).HttpError?
  }

  /** The lookup says that there is no such order: by status 404, or by the exchange's code for
      it as a number or as text. */
  predicate Denies(fate: LookupFate)
  {
    && fate.LookupFails? && fate.failure.HttpError? && fate.failure.failure.StatusError?
    && (fate.failure.failure.statusCode == 404
        || fate.failure.failure.body in {CodeNumber(-2013), CodeText("-2013")})
  }

  /** Whatever the exchange does, a call places two orders exactly when it takes the first one
      unseen, the lookup denies it, and it takes the second one too. */
  lemma TwoOrdersIff(v: Venue, order: PlacedOrder)
    ensures SafeSubmit(v, order).venue.orders == v.orders + [order, order] <==>
              && |v.submits| >= 2 && v.lookups != []
              && TakenUnseen(v.submits[0]) && Denies(v.lookups[0]) && !v.submits[1].FailsBefore?
  {
    assert v.orders + [order, order] == (v.orders + [order]) + [order];
    assert |v.orders + [order]| == |v.orders| + 1 && |v.orders + [order, order]| == |v.orders| + 2;
  }

  /** One denial of an accepted order is enough to double it. */
  lemma DenialDoublesTheOrder(order: PlacedOrder, payload: OrderPayload)
    ensures var v := Venue([], [TakenThenFails(HttpError(TransportError)), Taken(payload)], [LookupFails(NOT_FOUND)]);
            SafeSubmit(v, order) == Exchanged(Venue([order, order], [], []), Answer(payload))
  {
  }

  /** Under an id that was used before, a call can return normally without placing anything:
      exactly when the submission is lost before the exchange takes it and a truthful lookup
      finds the old order. */
  lemma ReturnsWithoutOrderIff(v: Venue, order: PlacedOrder)
    requires Honest(v.lookups)
    ensures var done := SafeSubmit(v, order);
            done.reply.Answer? && done.venue.orders == v.orders <==>
              && (v.submits == [] || (v.submits[0].FailsBefore? && AsFailure(v.submits[0].failure).HttpError?))
              && order in v.orders && v.lookups != [] && v.lookups[0].Truthful?
  {
    assert |v.orders + [order]| == |v.orders| + 1;
  }

  // ---- the two legs --------------------------------------------------------------------------------

  /** Under fresh ids an open or close places nothing, the spot order, or the spot order and
      then the perp order; it places both exactly once when it returns. */
  lemma PerpOnlyAfterSpot(v: Venue, request: ExecutionIntentRequest)
    requires Honest(v.lookups)
    requires SpotOrder(request.tradeId, request.action) !in v.orders
          && PerpOrder(request.tradeId, request.action) !in v.orders
    ensures var done := PlaceHedge(v, request);
            var spot, perp := SpotOrder(request.tradeId, request.action), PerpOrder(request.tradeId, request.action);
            && (|| done.venue.orders == v.orders
                || done.venue.orders == v.orders + [spot]
                || done.venue.orders == v.orders + [spot, perp])
            && (done.outcome.Returned? ==> done.venue.orders == v.orders + [spot, perp])
  {
    hide SafeSubmit;
    var order, second := SpotOrder(request.tradeId, request.action), PerpOrder(request.tradeId, request.action);
    AtMostOneOrder(v, order);
    ExactlyOneWhenItReturns(v, order);
    var spot := SafeSubmit(v, order);
    AtMostOneOrder(spot.venue, second);
    ExactlyOneWhenItReturns(spot.venue, second);
    assert (v.orders + [order]) + [second] == v.orders + [order, second];
  }

  // ---- what the caller is told -------------------------------------------------------------------------

  /** The payload's status is the word, in any case. */
  predicate StatusReads(payload: OrderPayload, word: string)
  {
    payload.status.Some? && Spells(payload.status.value, word)
  }

  /** The leg tells what the exchange said about the order, word for word. */
  predicate LegTells(report: LegReport, leg: Leg, payload: OrderPayload)
  {
    && report.leg == leg && report.payload.orderId == payload.orderId
    && (report.status == Filled <==> StatusReads(payload, "FILLED"))
    && (report.status == Partial <==> StatusReads(payload, "PARTIALLY_FILLED"))
    && (report.status == LegFailed <==> || StatusReads(payload, "REJECTED") || StatusReads(payload, "EXPIRED")
                                        || StatusReads(payload, "CANCELED"))
  }

  lemma ReportTells(leg: Leg, payload: OrderPayload)
    ensures LegTells(Report(leg, payload), leg, payload)
  {
    var text := if payload.status.Some? then payload.status.value else "submitted";
    StatusWords(text);
    StatusWords("submitted");
    hide Lower, Spells;
  }

  lemma StatusWords(text: string)
    ensures Lower(text) == "filled" <==> Spells(text, "FILLED")
    ensures Lower(text) == "partially_filled" <==> Spells(text, "PARTIALLY_FILLED")
    ensures Lower(text) == "rejected" <==> Spells(text, "REJECTED")
    ensures Lower(text) == "expired" <==> Spells(text, "EXPIRED")
    ensures Lower(text) == "canceled" <==> Spells(text, "CANCELED")
  {
    CaseDoesNotMatter(text, "FILLED");
    CaseDoesNotMatter(text, "PARTIALLY_FILLED");
    CaseDoesNotMatter(text, "REJECTED");
    CaseDoesNotMatter(text, "EXPIRED");
    CaseDoesNotMatter(text, "CANCELED");
    LowerWords();
    hide Lower, Spells;
  }

  lemma LowerWords()
    ensures Lower("FILLED") == "filled" && Lower("PARTIALLY_FILLED") == "partially_filled"
    ensures Lower("REJECTED") == "rejected" && Lower("EXPIRED") == "expired" && Lower("CANCELED") == "canceled"
  {
  }

  /** The exchange said this about some order, when it took it or when it was asked. */
  predicate SaidBy(v: Venue, payload: OrderPayload)
  {
    Taken(payload) in v.submits || Truthful(payload) in v.lookups || Invented(payload) in v.lookups
  }

  lemma AnswersAreSaid(v: Venue, order: PlacedOrder)
    ensures var done := SafeSubmit(v, order);
            && (done.reply.Answer? ==> SaidBy(v, done.reply.payload))
            && (forall payload :: SaidBy(done.venue, payload) ==> SaidBy(v, payload))
  {
    forall fate | fate in Rest(v.submits) ensures fate in v.submits {
    }
    forall fate | fate in Rest(Rest(v.submits)) ensures fate in v.submits {
    }
    forall fate | fate in Rest(v.lookups) ensures fate in v.lookups {
    }
  }

  /** A returned open or close reports the spot and then the perp leg, each as the exchange
      told it. */
  lemma LegsTellTheAnswers(v: Venue, request: ExecutionIntentRequest)
    requires PlaceHedge(v, request).outcome.Returned?
    ensures var legs := PlaceHedge(v, request).outcome.value;
            && |legs| == 2
            && (exists payload :: SaidBy(v, payload) && LegTells(legs[0], SpotLeg, payload))
            && (exists payload :: SaidBy(v, payload) && LegTells(legs[1], PerpLeg, payload))
  {
    hide SafeSubmit, LegTells, Report, SaidBy;
    var spot := SafeSubmit(v, SpotOrder(request.tradeId, request.action));
    AnswersAreSaid(v, SpotOrder(request.tradeId, request.action));
    var perp := SafeSubmit(spot.venue, PerpOrder(request.tradeId, request.action));
    AnswersAreSaid(spot.venue, PerpOrder(request.tradeId, request.action));
    ReportTells(SpotLeg, spot.reply.payload);
    ReportTells(PerpLeg, perp.reply.payload);
  }

  lemma RebalanceTellsTheAnswer(v: Venue, tradeId: string, quantity: real)
    requires RebalancePerp(v, tradeId, quantity).outcome.Returned?
    ensures var legs := RebalancePerp(v, tradeId, quantity).outcome.value;
            |legs| == 1 && exists payload :: SaidBy(v, payload) && LegTells(legs[0], PerpLeg, payload)
  {
    hide SafeSubmit, LegTells, Report, SaidBy;
    AnswersAreSaid(v, RebalanceOrder(tradeId));
    ReportTells(PerpLeg, SafeSubmit(v, RebalanceOrder(tradeId)).reply.payload);
  }

  /** A request without the quantities its orders need is refused before anything is sent: the
      perp quantity always, the spot notional for an open, the spot quantity for a close. */
  lemma RefusedBeforeSending(v: Venue, request: ExecutionIntentRequest)
    ensures var done := PlaceHedge(v, request);
            var complete := request.perpQuantity.Some? && request.perpQuantity.value > 0.0
                && if request.action == OpenHedge then request.spotNotional > 0.0
                   else request.spotQuantity.Some? && request.spotQuantity.value > 0.0;
            && (!complete ==> done.venue == v && done.outcome.Raised? && done.outcome.error.ValueError?)
            && (complete && done.outcome.Raised? ==> done.outcome.error.OtherError?)
  {
    hide SafeSubmit;
  }

  /** The five orders of one trade have five different client ids. */
  lemma OrderIdsDiffer(tradeId: string)
    ensures NoRepeats([SpotOrder(tradeId, OpenHedge).clientOrderId, SpotOrder(tradeId, CloseHedge).clientOrderId,
                       PerpOrder(tradeId, OpenHedge).clientOrderId, PerpOrder(tradeId, CloseHedge).clientOrderId,
                       RebalanceOrder(tradeId).clientOrderId])
  {
    var n := |tradeId|;
    assert (tradeId + "-spot-open")[n..] == "-spot-open" && (tradeId + "-spot-close")[n..] == "-spot-close";
    assert (tradeId + "-perp-open")[n..] == "-perp-open" && (tradeId + "-perp-close")[n..] == "-perp-close";
    assert (tradeId + "-perp-rebalance")[n..] == "-perp-rebalance";
  }

  /** Which failure the caller sees: the submission's own, unless it was an HTTP error and the
      lookup broke in another way, or denied the order and the second submission decided. */
  lemma FailuresArePassedOn(v: Venue, order: PlacedOrder)
    requires |v.submits| >= 2 && v.lookups != [] && !v.submits[0].Taken?
    ensures var reply, first := SafeSubmit(v, order).reply, AsFailure(v.submits[0].failure);
            && (first.OtherFailure? ==> reply == first)
            && (first.HttpError? && v.lookups[0].LookupFails? ==>
                  reply == if AsFailure(v.lookups[0].failure).OtherFailure? then v.lookups[0].failure
                           else if !Denies(v.lookups[0]) then first
                           else if v.submits[1].Taken? then Answer(v.submits[1].payload)
                           else AsFailure(v.submits[1].failure))
            && (first.HttpError? && v.lookups[0].Invented? ==> reply == Answer(v.lookups[0].payload))
  {
  }

  /** A rebalance without a positive quantity is refused before anything is sent. */
  lemma RebalanceRefusedIff(v: Venue, tradeId: string, quantity: real)
    ensures var done := RebalancePerp(v, tradeId, quantity);
            && (quantity <= 0.0 ==> done.venue == v && done.outcome.Raised? && done.outcome.error.ValueError?)
            && (quantity > 0.0 && done.outcome.Raised? ==> done.outcome.error.OtherError?)
  {
    hide SafeSubmit;
  }
}
