/**
 * The decision logic of the cinema ticket service: validation of the account
 * id and of the ticket requests, aggregation of the requests into per-type
 * counts, the ordered business rules, and the price and seat arithmetic.
 * Every step of `TicketService.purchaseTickets` is a function here, and
 * `Purchase` composes them into the whole pipeline.
 */
module Tickets {

  datatype Option<T> = None | Some(value: T)

  // ---------------------------------------------------------------------------
  // Data model
  // ---------------------------------------------------------------------------

  /** The three kinds of ticket the service sells. */
  datatype TicketType = Adult | Child | Infant

  /** The ticket type names the service accepts, in the order it lists them. */
  const ALLOWED_TICKET_TYPES: seq<string> := ["ADULT", "CHILD", "INFANT"]

  /** The name under which a ticket type appears in a request and in the counts. */
  function Name(t: TicketType): (s: string)
    ensures s in ALLOWED_TICKET_TYPES
    ensures ParseTicketType(s) == Some(t)
  {
    match t
    case Adult => "ADULT"
    case Child => "CHILD"
    case Infant => "INFANT"
  }

  /** The ticket type a name stands for, if it is one of the allowed names. */
  function ParseTicketType(s: string): (r: Option<TicketType>)
    ensures r.Some? <==> s in ALLOWED_TICKET_TYPES
  {
    if s == "ADULT" then Some(Adult)
    else if s == "CHILD" then Some(Child)
    else if s == "INFANT" then Some(Infant)
    else None
  }

  /**
   * One argument passed after the account id. A well-behaved caller passes a
   * ticket request (a type name and a number of tickets); anything else is
   * `NotATicketTypeRequest`.
   */
  datatype RequestArg =
    | TicketTypeRequest(ticketType: string, noOfTickets: int)
    | NotATicketTypeRequest

  /** The account id as a value of the caller: an integer or anything else. */
  datatype AccountId = IntegerId(n: int) | NonIntegerId

  /** Unit prices per ticket type and the per-purchase ticket limit. */
  datatype Config = Config(adultPrice: int, childPrice: int, infantPrice: int, maxTickets: int)

  /** The configuration used when no environment override is given. */
  const DEFAULT_CONFIG := Config(25, 15, 0, 25)

  /** The unit price of a ticket type. */
  function Price(cfg: Config, t: TicketType): int {
    match t
    case Adult => cfg.adultPrice
    case Child => cfg.childPrice
    case Infant => cfg.infantPrice
  }

  /** Number of tickets of each type in one purchase. */
  datatype Counts = Counts(adult: int, child: int, infant: int)

  /** The count stored for a ticket type. */
  function Get(c: Counts, t: TicketType): int {
    match t
    case Adult => c.adult
    case Child => c.child
    case Infant => c.infant
  }

  /** The counts after adding `n` tickets of type `t` (the `+=` of the aggregation). */
  function Add(c: Counts, t: TicketType, n: int): (r: Counts)
    ensures Get(r, t) == Get(c, t) + n
    ensures forall u :: u != t ==> Get(r, u) == Get(c, u)
  {
    match t
    case Adult => c.(adult := c.adult + n)
    case Child => c.(child := c.child + n)
    case Infant => c.(infant := c.infant + n)
  }

  function Total(c: Counts): int {
    c.adult + c.child + c.infant
  }

  /** One variant per rejection the service raises. */
  datatype PurchaseError =
    | InvalidAccountId
    | NoTicketsRequested
    | NotATicketRequest
    | InvalidTicketType(name: string)
    | NonPositiveQuantity
    | NoTicketsPurchased
    | TooManyTickets(max: int)
    | AdultRequired
    | TooManyInfants

  /** The charge made to the payment collaborator. */
  datatype Payment = Payment(accountId: int, totalAmount: int)

  /** The request made to the seat-reservation collaborator. */
  datatype Reservation = Reservation(accountId: int, totalSeats: int)

  /**
   * The result of a purchase: the first rejection, or the two collaborator
   * calls the service makes, payment first.
   */
  datatype Outcome =
    | Failure(error: PurchaseError)
    | Success(payment: Payment, reservation: Reservation)

  // ---------------------------------------------------------------------------
  // Step 1: the account id
  // ---------------------------------------------------------------------------

  predicate ValidAccountId(id: AccountId) {
    id.IntegerId? && id.n > 0
  }

  /** The rejection of `#validateAccountId`, if any. */
  function AccountIdError(id: AccountId): (e: Option<PurchaseError>)
    ensures e.None? <==> ValidAccountId(id)
    ensures e.Some? ==> e.value == InvalidAccountId
  {
    if !id.IntegerId? || id.n <= 0 then Some(InvalidAccountId) else None
  }

  // ---------------------------------------------------------------------------
  // Step 2: the ticket requests
  // ---------------------------------------------------------------------------

  /** A request the service accepts: a ticket request of an allowed type for at least one ticket. */
  predicate WellFormed(r: RequestArg) {
    r.TicketTypeRequest? && ParseTicketType(r.ticketType).Some? && r.noOfTickets > 0
  }

  predicate AllWellFormed(rs: seq<RequestArg>) {
    forall i :: 0 <= i < |rs| ==> WellFormed(rs[i])
  }

  /** The rejections that concern a single request. */
  predicate IsRequestError(e: PurchaseError) {
    e == NotATicketRequest || e.InvalidTicketType? || e == NonPositiveQuantity
  }

  /** The rejection of one request, checked in the service's order: kind, type, quantity. */
  function RequestError(r: RequestArg): (e: Option<PurchaseError>)
    ensures e.None? <==> WellFormed(r)
    ensures e.Some? ==> IsRequestError(e.value)
    ensures e == Some(NotATicketRequest) <==> r.NotATicketTypeRequest?
    ensures e.Some? && e.value.InvalidTicketType? <==>
      r.TicketTypeRequest? && r.ticketType !in ALLOWED_TICKET_TYPES
    ensures e.Some? && e.value.InvalidTicketType? ==> e.value.name == r.ticketType
    ensures e == Some(NonPositiveQuantity) <==>
      r.TicketTypeRequest? && r.ticketType in ALLOWED_TICKET_TYPES && r.noOfTickets <= 0
  {
    if r.NotATicketTypeRequest? then Some(NotATicketRequest)
    else if r.ticketType !in ALLOWED_TICKET_TYPES then Some(InvalidTicketType(r.ticketType))
    else if r.noOfTickets <= 0 then Some(NonPositiveQuantity)
    else None
  }

  /** The rejection of the first request that has one, scanning left to right. */
  function FirstRequestError(rs: seq<RequestArg>): (e: Option<PurchaseError>)
    ensures e.None? <==> AllWellFormed(rs)
    ensures e.Some? ==> IsRequestError(e.value)
  {
    if rs == [] then None
    else match RequestError(rs[0])
      case Some(err) => Some(err)
      case None =>
        var rest := FirstRequestError(rs[1..]);
        assert forall i :: 1 <= i < |rs| ==> rs[i] == rs[1..][i - 1];
        rest
  }

  /** The rejection of `#validateTicketTypeRequests`, if any. */
  function RequestsError(rs: seq<RequestArg>): (e: Option<PurchaseError>)
    ensures e.None? <==> |rs| > 0 && AllWellFormed(rs)
    ensures e.Some? ==> e.value == NoTicketsRequested || IsRequestError(e.value)
  {
    if |rs| == 0 then Some(NoTicketsRequested) else FirstRequestError(rs)
  }

  /**
   * The rejection reported for a list of requests is that of its first
   * malformed request.
   */
  lemma {:induction false} FirstMalformedDecides(rs: seq<RequestArg>, i: int)
    requires 0 <= i < |rs| && !WellFormed(rs[i])
    requires forall j :: 0 <= j < i ==> WellFormed(rs[j])
    ensures RequestsError(rs) == RequestError(rs[i])
    ensures FirstRequestError(rs) == RequestError(rs[i])
  {
    if i > 0 {
      assert WellFormed(rs[0]);
      FirstMalformedDecides(rs[1..], i - 1);
    }
  }

  // ---------------------------------------------------------------------------
  // Step 3: aggregation
  // ---------------------------------------------------------------------------

  /** The tickets of type `t` that one request asks for. */
  function QuantityOf(r: RequestArg, t: TicketType): int {
    if r.TicketTypeRequest? && r.ticketType == Name(t) then r.noOfTickets else 0
  }

  /** The sum of the quantities of all requests for type `t`. */
  function SumOf(rs: seq<RequestArg>, t: TicketType): int {
    if rs == [] then 0 else QuantityOf(rs[0], t) + SumOf(rs[1..], t)
  }

  /** The per-type counts of a list of requests. */
  function Aggregate(rs: seq<RequestArg>): Counts {
    Counts(SumOf(rs, Adult), SumOf(rs, Child), SumOf(rs, Infant))
  }

  lemma {:induction false} SumOfAppend(a: seq<RequestArg>, b: seq<RequestArg>, t: TicketType)
    ensures SumOf(a + b, t) == SumOf(a, t) + SumOf(b, t)
  {
    if a == [] {
      assert a + b == b;
    } else {
      assert (a + b)[1..] == a[1..] + b;
      SumOfAppend(a[1..], b, t);
    }
  }

  /** Counting one more request adds its quantity to the count of its type and to nothing else. */
  lemma AggregateSnoc(rs: seq<RequestArg>, r: RequestArg)
    requires WellFormed(r)
    ensures Aggregate(rs + [r]) == Add(Aggregate(rs), ParseTicketType(r.ticketType).value, r.noOfTickets)
  {
    var t := ParseTicketType(r.ticketType).value;
    assert r.ticketType == Name(t);
    forall u ensures SumOf(rs + [r], u) == SumOf(rs, u) + QuantityOf(r, u) {
      SumOfAppend(rs, [r], u);
    }
  }

  /** Taking the request at index `j` out of a list takes its quantity out of the sum. */
  lemma SumOfRemove(b: seq<RequestArg>, j: int, t: TicketType)
    requires 0 <= j < |b|
    ensures SumOf(b, t) == QuantityOf(b[j], t) + SumOf(b[..j] + b[j + 1..], t)
  {
    assert b == (b[..j] + [b[j]]) + b[j + 1..];
    SumOfAppend(b[..j] + [b[j]], b[j + 1..], t);
    SumOfAppend(b[..j], [b[j]], t);
    SumOfAppend(b[..j], b[j + 1..], t);
  }

  /** Taking the element at index `j` out of a list takes it out of the list's multiset. */
  lemma MultisetRemove(b: seq<RequestArg>, j: int)
    requires 0 <= j < |b|
    ensures multiset(b[..j] + b[j + 1..]) == multiset(b) - multiset{b[j]}
  {
    assert b == b[..j] + [b[j]] + b[j + 1..];
  }

  /** The per-type sum of a list of requests does not depend on their order. */
  lemma {:induction false} SumOfPermutation(a: seq<RequestArg>, b: seq<RequestArg>, t: TicketType)
    requires multiset(a) == multiset(b)
    ensures SumOf(a, t) == SumOf(b, t)
    decreases |a|
  {
    if a == [] {
      assert |b| == |multiset(b)| == 0;
    } else {
      var x, tail := a[0], a[1..];
      assert a == [x] + tail;
      assert multiset(tail) == multiset(a) - multiset{x};
      assert x in multiset(b);
      var j :| 0 <= j < |b| && b[j] == x;
      var rest := b[..j] + b[j + 1..];
      MultisetRemove(b, j);
      SumOfPermutation(tail, rest, t);
      SumOfRemove(b, j, t);
      assert SumOf(a, t) == QuantityOf(x, t) + SumOf(tail, t);
    }
  }

  /** The counts do not depend on the order in which requests are listed. */
  lemma AggregatePermutation(a: seq<RequestArg>, b: seq<RequestArg>)
    requires multiset(a) == multiset(b)
    ensures Aggregate(a) == Aggregate(b)
  {
    SumOfPermutation(a, b, Adult);
    SumOfPermutation(a, b, Child);
    SumOfPermutation(a, b, Infant);
  }

  /** Accepted requests give non-negative counts whose total is at least the number of requests. */
  lemma {:induction false} AggregateBounds(rs: seq<RequestArg>)
    requires AllWellFormed(rs)
    ensures Aggregate(rs).adult >= 0 && Aggregate(rs).child >= 0 && Aggregate(rs).infant >= 0
    ensures Total(Aggregate(rs)) >= |rs|
  {
    if rs != [] {
      assert AllWellFormed(rs[1..]) by {
        forall i | 0 <= i < |rs| - 1 ensures WellFormed(rs[1..][i]) {
          assert rs[1..][i] == rs[i + 1];
        }
      }
      AggregateBounds(rs[1..]);
      assert WellFormed(rs[0]);
      var t := ParseTicketType(rs[0].ticketType).value;
      assert rs[0].ticketType == Name(t);
      assert QuantityOf(rs[0], t) == rs[0].noOfTickets;
    }
  }

  // ---------------------------------------------------------------------------
  // Step 4: the business rules
  // ---------------------------------------------------------------------------

  /** The first business rule the counts break, checked in the service's order. */
  function RulesError(cfg: Config, c: Counts): (e: Option<PurchaseError>)
    ensures e.None? <==>
      Total(c) != 0 && Total(c) <= cfg.maxTickets
      && !(c.adult == 0 && (c.child > 0 || c.infant > 0))
      && c.infant <= c.adult
    ensures e == Some(NoTicketsPurchased) <==> Total(c) == 0
    ensures e.Some? && e.value.TooManyTickets? ==> Total(c) > cfg.maxTickets && e.value.max == cfg.maxTickets
    ensures e == Some(AdultRequired) ==> c.adult == 0 && (c.child > 0 || c.infant > 0)
    ensures e == Some(TooManyInfants) ==> c.infant > c.adult
  {
    var total := Total(c);
    if total == 0 then Some(NoTicketsPurchased)
    else if total > cfg.maxTickets then Some(TooManyTickets(cfg.maxTickets))
    else if c.adult == 0 && (c.child > 0 || c.infant > 0) then Some(AdultRequired)
    else if c.infant > c.adult then Some(TooManyInfants)
    else None
  }

  // ---------------------------------------------------------------------------
  // Steps 5 and 6: price and seats
  // ---------------------------------------------------------------------------

  /** The counts as (type, count) entries, in the order the counts object lists its keys. */
  function Entries(c: Counts): seq<(TicketType, int)> {
    [(Adult, c.adult), (Child, c.child), (Infant, c.infant)]
  }

  /** Left fold adding price times count for each entry to a running total. */
  function SumPrices(cfg: Config, total: int, entries: seq<(TicketType, int)>): int
    decreases |entries|
  {
    if entries == [] then total
    else SumPrices(cfg, total + Price(cfg, entries[0].0) * entries[0].1, entries[1..])
  }

  /** The amount charged for the counts: each ticket costs the unit price of its type. */
  function TotalPrice(cfg: Config, c: Counts): (amount: int)
    ensures amount == c.adult * cfg.adultPrice + c.child * cfg.childPrice + c.infant * cfg.infantPrice
  {
    var es := Entries(c);
    assert es[1..] == [(Child, c.child), (Infant, c.infant)];
    assert es[1..][1..] == [(Infant, c.infant)];
    assert es[1..][1..][1..] == [];
    var a := cfg.adultPrice * c.adult;
    var ac := a + cfg.childPrice * c.child;
    assert SumPrices(cfg, 0, es) == SumPrices(cfg, a, es[1..]);
    assert SumPrices(cfg, a, es[1..]) == SumPrices(cfg, ac, es[1..][1..]);
    assert SumPrices(cfg, ac, es[1..][1..]) == ac + cfg.infantPrice * c.infant;
    SumPrices(cfg, 0, es)
  }

  /** The seats reserved for the counts: every ticket except infant tickets takes a seat. */
  function TotalSeats(c: Counts): (seats: int)
    ensures seats == Total(c) - c.infant
  {
    c.adult + c.child
  }

  // ---------------------------------------------------------------------------
  // The whole purchase
  // ---------------------------------------------------------------------------

  /**
   * `purchaseTickets(accountId, ...requests)`: the first rejection in the
   * service's order, or the payment and reservation it then makes.
   */
  function Purchase(cfg: Config, id: AccountId, rs: seq<RequestArg>): (r: Outcome)
    ensures r.Success? ==> ValidAccountId(id)
    ensures r.Success? ==> r.payment.accountId == id.n && r.reservation.accountId == id.n
  {
    match AccountIdError(id)
    case Some(e) => Failure(e)
    case None =>
      match RequestsError(rs)
      case Some(e) => Failure(e)
      case None =>
        var counts := Aggregate(rs);
        match RulesError(cfg, counts)
        case Some(e) => Failure(e)
        case None => Success(Payment(id.n, TotalPrice(cfg, counts)), Reservation(id.n, TotalSeats(counts)))
  }

  /** An account id that is not a positive integer is rejected whatever the requests are. */
  lemma InvalidAccountAlwaysFails(cfg: Config, id: AccountId, rs: seq<RequestArg>)
    requires !ValidAccountId(id)
    ensures Purchase(cfg, id, rs) == Failure(InvalidAccountId)
  {
  }

  /** A purchase without requests is rejected. */
  lemma EmptyRequestsFail(cfg: Config, id: AccountId)
    ensures Purchase(cfg, id, []).Failure?
    ensures ValidAccountId(id) ==> Purchase(cfg, id, []) == Failure(NoTicketsRequested)
  {
  }

  /**
   * A purchase with a malformed request (not a ticket request, an unknown
   * type, or a quantity below one) is rejected, with the rejection of the
   * first malformed request.
   */
  lemma MalformedRequestFails(cfg: Config, id: AccountId, rs: seq<RequestArg>, i: int)
    requires ValidAccountId(id)
    requires 0 <= i < |rs| && !WellFormed(rs[i])
    requires forall j :: 0 <= j < i ==> WellFormed(rs[j])
    ensures Purchase(cfg, id, rs) == Failure(RequestError(rs[i]).value)
  {
    FirstMalformedDecides(rs, i);
  }

  /**
   * Once the requests are accepted their total is positive, so the
   * "at least one ticket" rule never rejects a purchase.
   */
  lemma NoTicketsPurchasedUnreachable(cfg: Config, id: AccountId, rs: seq<RequestArg>)
    ensures RequestsError(rs).None? ==> Total(Aggregate(rs)) > 0
    ensures Purchase(cfg, id, rs) != Failure(NoTicketsPurchased)
  {
    if RequestsError(rs).None? {
      AggregateBounds(rs);
    }
  }

  /** Accepted requests whose total exceeds the limit are rejected with the limit. */
  lemma TooManyTicketsFails(cfg: Config, id: AccountId, rs: seq<RequestArg>)
    requires ValidAccountId(id) && |rs| > 0 && AllWellFormed(rs)
    requires Total(Aggregate(rs)) > cfg.maxTickets
    ensures Purchase(cfg, id, rs) == Failure(TooManyTickets(cfg.maxTickets))
  {
    AggregateBounds(rs);
  }

  /** Exactly the limit is not rejected by the limit rule. */
  lemma AtLimitPasses(cfg: Config, id: AccountId, rs: seq<RequestArg>)
    requires Total(Aggregate(rs)) == cfg.maxTickets
    ensures !(Purchase(cfg, id, rs).Failure? && Purchase(cfg, id, rs).error.TooManyTickets?)
  {
  }

  /** Child or infant tickets without an adult ticket are rejected, if within the limit. */
  lemma AdultRequiredFails(cfg: Config, id: AccountId, rs: seq<RequestArg>)
    requires ValidAccountId(id) && |rs| > 0 && AllWellFormed(rs)
    requires Total(Aggregate(rs)) <= cfg.maxTickets
    requires Aggregate(rs).adult == 0 && (Aggregate(rs).child > 0 || Aggregate(rs).infant > 0)
    ensures Purchase(cfg, id, rs) == Failure(AdultRequired)
  {
    AggregateBounds(rs);
  }

  /**
   * More infant than adult tickets are rejected once the earlier rules pass;
   * as many infants as adults is allowed.
   */
  lemma TooManyInfantsFails(cfg: Config, id: AccountId, rs: seq<RequestArg>)
    requires ValidAccountId(id) && |rs| > 0 && AllWellFormed(rs)
    requires Total(Aggregate(rs)) <= cfg.maxTickets && Aggregate(rs).adult > 0
    ensures Aggregate(rs).infant > Aggregate(rs).adult ==> Purchase(cfg, id, rs) == Failure(TooManyInfants)
    ensures Aggregate(rs).infant == Aggregate(rs).adult ==> Purchase(cfg, id, rs).Success?
  {
    AggregateBounds(rs);
  }

  /**
   * A purchase succeeds exactly when the account id is a positive integer,
   * there is at least one request, every request is well formed, and the
   * counts keep the limit and the adult and infant rules; it then charges the
   * sum of unit price times count and reserves a seat for every adult and
   * child ticket.
   */
  lemma PurchaseSucceedsIff(cfg: Config, id: AccountId, rs: seq<RequestArg>)
    ensures Purchase(cfg, id, rs).Success? <==>
      ValidAccountId(id) && |rs| > 0 && AllWellFormed(rs)
      && Total(Aggregate(rs)) <= cfg.maxTickets
      && (Aggregate(rs).child > 0 || Aggregate(rs).infant > 0 ==> Aggregate(rs).adult > 0)
      && Aggregate(rs).infant <= Aggregate(rs).adult
    ensures Purchase(cfg, id, rs).Success? ==>
      var c := Aggregate(rs);
      && Purchase(cfg, id, rs).payment.totalAmount
         == SumOf(rs, Adult) * cfg.adultPrice + SumOf(rs, Child) * cfg.childPrice + SumOf(rs, Infant) * cfg.infantPrice
      && Purchase(cfg, id, rs).reservation.totalSeats == SumOf(rs, Adult) + SumOf(rs, Child)
      && c.adult >= c.infant >= 0 && c.child >= 0
  {
    if ValidAccountId(id) && |rs| > 0 && AllWellFormed(rs) {
      AggregateBounds(rs);
    }
  }

  /** Under the default configuration an adult ticket costs 25, a child 15, an infant nothing. */
  lemma DefaultPricing(id: AccountId, rs: seq<RequestArg>)
    requires Purchase(DEFAULT_CONFIG, id, rs).Success?
    ensures Purchase(DEFAULT_CONFIG, id, rs).payment.totalAmount == 25 * SumOf(rs, Adult) + 15 * SumOf(rs, Child)
    ensures Purchase(DEFAULT_CONFIG, id, rs).reservation.totalSeats == SumOf(rs, Adult) + SumOf(rs, Child)
    ensures Total(Aggregate(rs)) <= 25
  {
  }

  // ---------------------------------------------------------------------------
  // Concrete purchases under the default configuration
  // ---------------------------------------------------------------------------

  /** Two adults, a child and an infant cost 65 and take three seats. */
  lemma {:induction false} MixedPurchaseExample()
    ensures Purchase(DEFAULT_CONFIG, IntegerId(1),
      [TicketTypeRequest("ADULT", 2), TicketTypeRequest("CHILD", 1), TicketTypeRequest("INFANT", 1)])
      == Success(Payment(1, 65), Reservation(1, 3))
  {
    var rs := [TicketTypeRequest("ADULT", 2), TicketTypeRequest("CHILD", 1), TicketTypeRequest("INFANT", 1)];
    assert AllWellFormed(rs);
    assert Aggregate(rs) == Counts(2, 1, 1) by {
      SumOfAppend([rs[0]], [rs[1], rs[2]], Adult);
      SumOfAppend([rs[0]], [rs[1], rs[2]], Child);
      SumOfAppend([rs[0]], [rs[1], rs[2]], Infant);
      SumOfAppend([rs[1]], [rs[2]], Adult);
      SumOfAppend([rs[1]], [rs[2]], Child);
      SumOfAppend([rs[1]], [rs[2]], Infant);
      assert rs == [rs[0]] + ([rs[1]] + [rs[2]]);
    }
  }

  /** Two requests for adults add up: three adults cost 75 and take three seats. */
  lemma {:induction false} RepeatedRequestsExample()
    ensures Purchase(DEFAULT_CONFIG, IntegerId(1), [TicketTypeRequest("ADULT", 2), TicketTypeRequest("ADULT", 1)])
      == Success(Payment(1, 75), Reservation(1, 3))
  {
    var rs := [TicketTypeRequest("ADULT", 2), TicketTypeRequest("ADULT", 1)];
    assert AllWellFormed(rs);
    assert Aggregate(rs) == Counts(3, 0, 0) by {
      SumOfAppend([rs[0]], [rs[1]], Adult);
      SumOfAppend([rs[0]], [rs[1]], Child);
      SumOfAppend([rs[0]], [rs[1]], Infant);
      assert rs == [rs[0]] + [rs[1]];
    }
  }

  /** Account 0 and an empty request list are rejected. */
  lemma AccountAndEmptyExamples()
    ensures Purchase(DEFAULT_CONFIG, IntegerId(0), [TicketTypeRequest("ADULT", 1)]) == Failure(InvalidAccountId)
    ensures Purchase(DEFAULT_CONFIG, IntegerId(1), []) == Failure(NoTicketsRequested)
  {
  }

  /** Twenty-six adults break the default limit; twenty-five do not. */
  lemma LimitExamples()
    ensures Purchase(DEFAULT_CONFIG, IntegerId(1), [TicketTypeRequest("ADULT", 26)]) == Failure(TooManyTickets(25))
    ensures Purchase(DEFAULT_CONFIG, IntegerId(1), [TicketTypeRequest("ADULT", 25)])
      == Success(Payment(1, 625), Reservation(1, 25))
  {
    assert "ADULT"[0] != "CHILD"[0] && "ADULT"[0] != "INFANT"[0];
    assert AllWellFormed([TicketTypeRequest("ADULT", 26)]);
    assert Aggregate([TicketTypeRequest("ADULT", 26)]) == Counts(26, 0, 0);
    assert AllWellFormed([TicketTypeRequest("ADULT", 25)]);
    assert Aggregate([TicketTypeRequest("ADULT", 25)]) == Counts(25, 0, 0);
  }

  /** A child alone and an infant alone are rejected for want of an adult. */
  lemma AdultRequiredExamples()
    ensures Purchase(DEFAULT_CONFIG, IntegerId(1), [TicketTypeRequest("CHILD", 1)]) == Failure(AdultRequired)
    ensures Purchase(DEFAULT_CONFIG, IntegerId(1), [TicketTypeRequest("INFANT", 1)]) == Failure(AdultRequired)
  {
    assert "CHILD"[0] != "ADULT"[0] && "CHILD"[0] != "INFANT"[0];
    assert "INFANT"[0] != "ADULT"[0] && |"INFANT"| != |"CHILD"|;
    assert AllWellFormed([TicketTypeRequest("CHILD", 1)]);
    assert Aggregate([TicketTypeRequest("CHILD", 1)]) == Counts(0, 1, 0);
    assert AllWellFormed([TicketTypeRequest("INFANT", 1)]);
    assert Aggregate([TicketTypeRequest("INFANT", 1)]) == Counts(0, 0, 1);
  }

  /** A request for no tickets and a request of an unknown type are rejected. */
  lemma MalformedExamples()
    ensures Purchase(DEFAULT_CONFIG, IntegerId(1), [TicketTypeRequest("ADULT", 0)]) == Failure(NonPositiveQuantity)
    ensures Purchase(DEFAULT_CONFIG, IntegerId(1), [TicketTypeRequest("SENIOR", 1)]) == Failure(InvalidTicketType("SENIOR"))
  {
    assert "SENIOR"[0] != "ADULT"[0] && "SENIOR"[0] != "CHILD"[0] && "SENIOR"[0] != "INFANT"[0];
    assert "SENIOR" !in ALLOWED_TICKET_TYPES;
    assert RequestError(TicketTypeRequest("SENIOR", 1)) == Some(InvalidTicketType("SENIOR"));
    assert RequestError(TicketTypeRequest("ADULT", 0)) == Some(NonPositiveQuantity);
  }

  /** One adult with two infants is rejected; one adult with one infant is not. */
  lemma {:induction false} InfantExamples()
    ensures Purchase(DEFAULT_CONFIG, IntegerId(1), [TicketTypeRequest("ADULT", 1), TicketTypeRequest("INFANT", 2)])
      == Failure(TooManyInfants)
    ensures Purchase(DEFAULT_CONFIG, IntegerId(1), [TicketTypeRequest("ADULT", 1), TicketTypeRequest("INFANT", 1)])
      == Success(Payment(1, 25), Reservation(1, 1))
  {
    var rs := [TicketTypeRequest("ADULT", 1), TicketTypeRequest("INFANT", 2)];
    assert AllWellFormed(rs);
    assert Aggregate(rs) == Counts(1, 0, 2) by {
      SumOfAppend([rs[0]], [rs[1]], Adult);
      SumOfAppend([rs[0]], [rs[1]], Child);
      SumOfAppend([rs[0]], [rs[1]], Infant);
      assert rs == [rs[0]] + [rs[1]];
    }
    var qs := [TicketTypeRequest("ADULT", 1), TicketTypeRequest("INFANT", 1)];
    assert AllWellFormed(qs);
    assert Aggregate(qs) == Counts(1, 0, 1) by {
      SumOfAppend([qs[0]], [qs[1]], Adult);
      SumOfAppend([qs[0]], [qs[1]], Child);
      SumOfAppend([qs[0]], [qs[1]], Infant);
      assert qs == [qs[0]] + [qs[1]];
    }
  }
}
