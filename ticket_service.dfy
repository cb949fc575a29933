/**
 * The `TicketService` class: its private validation and counting steps as
 * loops proved against the functions of `Tickets`, and `PurchaseTickets`,
 * which runs the steps in order and, when all pass, calls the payment and
 * seat-reservation collaborators. The collaborators are represented by the
 * ordered log of the calls they receive.
 */
module Service {
  import opened Tickets

  /** A call received by one of the two collaborators. */
  datatype Call =
    | PaymentCall(accountId: int, totalAmount: int)
    | ReservationCall(accountId: int, totalSeats: int)

  /**
   * The collaborator calls a purchase outcome stands for: none on a
   * rejection; otherwise one payment and then one reservation.
   */
  function CallsOf(o: Outcome): seq<Call> {
    match o
    case Failure(_) => []
    case Success(p, r) => [PaymentCall(p.accountId, p.totalAmount), ReservationCall(r.accountId, r.totalSeats)]
  }

  /** A purchase calls the collaborators exactly when every check passes. */
  lemma CallsIffAdmissible(cfg: Config, id: AccountId, rs: seq<RequestArg>)
    ensures CallsOf(Purchase(cfg, id, rs)) != [] <==>
      ValidAccountId(id) && |rs| > 0 && AllWellFormed(rs)
      && Total(Aggregate(rs)) <= cfg.maxTickets
      && (Aggregate(rs).child > 0 || Aggregate(rs).infant > 0 ==> Aggregate(rs).adult > 0)
      && Aggregate(rs).infant <= Aggregate(rs).adult
  {
    PurchaseSucceedsIff(cfg, id, rs);
  }

  /**
   * The calls of a purchase are nothing at all, or one payment of the priced
   * counts followed by one reservation of the adult and child seats, both for
   * the purchasing account.
   */
  lemma PaymentPrecedesReservation(cfg: Config, id: AccountId, rs: seq<RequestArg>)
    ensures var calls := CallsOf(Purchase(cfg, id, rs));
      calls == [] ||
      calls == [PaymentCall(id.n, TotalPrice(cfg, Aggregate(rs))),
                ReservationCall(id.n, SumOf(rs, Adult) + SumOf(rs, Child))]
  {
  }

  class TicketService {
    /** Prices and ticket limit, fixed for the lifetime of the service. */
    const config: Config
    /** The calls made so far to the payment and seat-reservation collaborators, oldest first. */
    var calls: seq<Call>

    constructor(config: Config)
      ensures this.config == config && calls == []
    {
      this.config := config;
      calls := [];
    }

    /**
     * Rejects an empty request list, then scans the requests in order and
     * rejects the first that is not a ticket request, has an unknown type or
     * asks for zero or fewer tickets.
     */
    method ValidateTicketTypeRequests(requests: seq<RequestArg>) returns (error: Option<PurchaseError>)
      ensures error == RequestsError(requests)
      ensures error.None? <==> |requests| > 0 && AllWellFormed(requests)
    {
      if |requests| == 0 {
        return Some(NoTicketsRequested);
      }
      var i := 0;
      while i < |requests|
        invariant 0 <= i <= |requests|
        invariant forall j :: 0 <= j < i ==> WellFormed(requests[j])
      {
        var request := requests[i];
        if request.NotATicketTypeRequest? {
          FirstMalformedDecides(requests, i);
          return Some(NotATicketRequest);
        }
        if request.ticketType !in ALLOWED_TICKET_TYPES {
          FirstMalformedDecides(requests, i);
          return Some(InvalidTicketType(request.ticketType));
        }
        if request.noOfTickets <= 0 {
          FirstMalformedDecides(requests, i);
          return Some(NonPositiveQuantity);
        }
        i := i + 1;
      }
      return None;
    }

    /**
     * Starts from zero for every type and adds each request's quantity to the
     * count of its type.
     */
    method CountTicketsByType(requests: seq<RequestArg>) returns (counts: Counts)
      requires AllWellFormed(requests)
      ensures counts == Aggregate(requests)
      ensures forall t :: Get(counts, t) == SumOf(requests, t)
    {
      counts := Counts(0, 0, 0);
      var i := 0;
      while i < |requests|
        invariant 0 <= i <= |requests|
        invariant counts == Aggregate(requests[..i])
      {
        var request := requests[i];
        assert requests[..i + 1] == requests[..i] + [request];
        AggregateSnoc(requests[..i], request);
        counts := Add(counts, ParseTicketType(request.ticketType).value, request.noOfTickets);
        i := i + 1;
      }
      assert requests[..i] == requests;
    }

    /**
     * Validates the account id, the requests and the business rules, in that
     * order, stopping at the first rejection; if none, charges the account and
     * then reserves its seats.
     */
    method PurchaseTickets(accountId: AccountId, requests: seq<RequestArg>) returns (error: Option<PurchaseError>)
      modifies this
      ensures error.Some? <==> Purchase(config, accountId, requests).Failure?
      ensures error.Some? ==> error.value == Purchase(config, accountId, requests).error
      ensures calls == old(calls) + CallsOf(Purchase(config, accountId, requests))
    {
      error := AccountIdError(accountId);
      if error.Some? {
        return;
      }
      error := ValidateTicketTypeRequests(requests);
      if error.Some? {
        return;
      }
      var counts := CountTicketsByType(requests);
      error := RulesError(config, counts);
      if error.Some? {
        return;
      }
      var totalAmount := TotalPrice(config, counts);
      var totalSeats := TotalSeats(counts);
      calls := calls + [PaymentCall(accountId.n, totalAmount)];
      calls := calls + [ReservationCall(accountId.n, totalSeats)];
    }
  }
}
