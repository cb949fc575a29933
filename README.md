# Cinema ticket service: a Dafny model of the purchase validator and pricing engine

`TicketService.purchaseTickets(accountId, ...ticketTypeRequests)` is the only
decision logic of the cinema ticket service. It runs as one synchronous pass:

1. it rejects an account id that is not a positive integer;
2. it rejects an empty request list, and then the first request that is not a
   ticket request, names a type other than ADULT, CHILD or INFANT, or asks for
   zero or fewer tickets;
3. it adds up the quantities per ticket type;
4. it checks four business rules in a fixed order: at least one ticket; no more
   than the ticket limit; child or infant tickets need an adult ticket; no more
   infant than adult tickets;
5. it prices the purchase as the sum of unit price times count;
6. it counts the seats as adult plus child tickets, leaving infant tickets out;
7. it charges the account through the payment collaborator and then reserves
   the seats through the seat-reservation collaborator.

The model has two modules.

- `Tickets` (`tickets.dfy`) holds the data model (ticket types and their
  names, requests, account ids, the configuration, per-type counts, one error
  variant per rejection) and one function per step. `Purchase` composes the
  steps into the whole pipeline. Its result is either the first rejection or
  the payment and the reservation that the service then makes. The lemmas state
  the service's promises: which inputs are rejected and with which error, which
  rejection takes precedence, that the counts are the per-type sums and that
  any permutation of the requests gives the same counts, that the "at least
  one ticket" rule can never fire, and exactly when a purchase succeeds and
  what it then charges and reserves.
- `Service` (`ticket_service.dfy`) holds the class `TicketService`. The two
  private steps that the source writes as loops, the request validation and the
  counting, are methods with loops, each proved equal to its function in
  `Tickets`. `PurchaseTickets` runs the steps in order and appends the
  collaborator calls to the log `calls`. Its contract ties the new log and the
  returned error to `Purchase`.

The prices and the ticket limit are a `Config` value given to the service's
constructor. `DEFAULT_CONFIG` holds the defaults: adult 25, child 15, infant 0,
at most 25 tickets. A thrown `InvalidPurchaseException` is a returned
`PurchaseError`. Each variant stands for one of the exception messages.

`purchaseTickets` returns nothing, so the model has no result summary. Its only
effects are the two collaborator calls, and the model records exactly those.

## Model

| member | source | states |
|---|---|---|
| `Tickets.Name` | src/pairtest/TicketService.js:20 | every ticket type has an allowed name, and that name parses back to the same type |
| `Tickets.ParseTicketType` | src/pairtest/TicketService.js:75 | a name stands for a ticket type exactly when it is in the allowed list |
| `Tickets.AccountIdError` | src/pairtest/TicketService.js:57-61 | the account id is rejected with the invalid-account error exactly when it is not an integer or is at most zero |
| `Tickets.RequestError` | src/pairtest/TicketService.js:71-81 | a request is rejected exactly when it is not a ticket request, has an unknown type or asks for zero or fewer tickets; the checks run in the source's order: "not a ticket request" exactly for a non-request, "invalid ticket type" naming the type exactly for a request of an unknown type, and "non-positive quantity" exactly for an allowed type with a quantity of zero or less |
| `Tickets.FirstRequestError` | src/pairtest/TicketService.js:71-81 | scanning the requests finds no rejection exactly when every request is well formed |
| `Tickets.RequestsError` | src/pairtest/TicketService.js:66-82 | the request list passes exactly when it is non-empty and every request is well formed; otherwise the error is "no tickets requested" or a request error |
| `Tickets.FirstMalformedDecides` | src/pairtest/TicketService.js:71-81 | the error reported for a list is that of its first malformed request |
| `Tickets.Add` | src/pairtest/TicketService.js:95 | adding tickets of one type changes that type's count by the quantity and leaves the other counts alone |
| `Tickets.SumOfAppend` | src/pairtest/TicketService.js:94-96 | the per-type sum of two lists laid end to end is the sum of their per-type sums |
| `Tickets.AggregateSnoc` | src/pairtest/TicketService.js:94-96 | counting one more accepted request adds its quantity to the count of its type |
| `Tickets.SumOfRemove` | src/pairtest/TicketService.js:94-96 | taking one request out of a list takes its quantity out of the per-type sum |
| `Tickets.SumOfPermutation` | src/pairtest/TicketService.js:94-96 | any permutation of a list of requests has the same per-type sums |
| `Tickets.AggregatePermutation` | src/pairtest/TicketService.js:87-99 | the counts do not depend on the order of the requests: any permutation gives the same counts |
| `Tickets.AggregateBounds` | src/pairtest/TicketService.js:87-99 | accepted requests give non-negative counts whose total is at least the number of requests |
| `Tickets.RulesError` | src/pairtest/TicketService.js:104-122 | the counts pass exactly when the total is non-zero and within the limit, children and infants come with an adult, and infants do not outnumber adults; each rule's error implies that rule is broken |
| `Tickets.TotalPrice` | src/pairtest/TicketService.js:127-131 | the fold over the counts' entries charges adult, child and infant counts each at their unit price |
| `Tickets.TotalSeats` | src/pairtest/TicketService.js:136-138 | every ticket except infant tickets takes a seat |
| `Tickets.Purchase` | src/pairtest/TicketService.js:40-52 | a successful purchase has a positive integer account id, and both the payment and the reservation are for that account |
| `Tickets.InvalidAccountAlwaysFails` | src/pairtest/TicketService.js:41-42 | an invalid account id is rejected whatever the requests, before any request is looked at |
| `Tickets.EmptyRequestsFail` | src/pairtest/TicketService.js:66-69 | a purchase with no requests is always rejected, with "no tickets requested" when the account is valid |
| `Tickets.MalformedRequestFails` | src/pairtest/TicketService.js:71-81 | a malformed request makes the purchase fail with the error of the first malformed request |
| `Tickets.NoTicketsPurchasedUnreachable` | src/pairtest/TicketService.js:105-109 | accepted requests have a positive total, so the zero-total rejection never happens |
| `Tickets.TooManyTicketsFails` | src/pairtest/TicketService.js:111-113 | accepted requests totalling more than the limit are rejected with the limit |
| `Tickets.AtLimitPasses` | src/pairtest/TicketService.js:111-113 | a total equal to the limit is never rejected by the limit rule |
| `Tickets.AdultRequiredFails` | src/pairtest/TicketService.js:115-117 | child or infant tickets without adult tickets are rejected when within the limit |
| `Tickets.TooManyInfantsFails` | src/pairtest/TicketService.js:119-121 | more infants than adults are rejected once the earlier rules pass; as many infants as adults succeeds |
| `Tickets.PurchaseSucceedsIff` | src/pairtest/TicketService.js:40-52 | a purchase succeeds exactly when the account id, the request list and all rules are valid; it then charges the per-type sums at their prices and reserves adult plus child seats |
| `Tickets.DefaultPricing` | src/pairtest/TicketService.js:11-19 | under the defaults a successful purchase costs 25 per adult and 15 per child, infants are free, and there are at most 25 tickets |
| `Tickets.MixedPurchaseExample` | test/TicketService.test.js:27-36 | two adults, a child and an infant cost 65 and reserve three seats |
| `Tickets.AccountAndEmptyExamples` | test/TicketService.test.js:38-51 | account 0 is rejected, and so is a purchase with no requests |
| `Tickets.LimitExamples` | src/pairtest/TicketService.js:111-113 | 26 adult tickets are rejected by the default limit (as in test/TicketService.test.js:53-60), and 25 succeed, costing 625 |
| `Tickets.AdultRequiredExamples` | test/TicketService.test.js:62-78 | a lone child ticket and a lone infant ticket are rejected for want of an adult |
| `Tickets.RepeatedRequestsExample` | test/TicketService.test.js:80-88 | two adult requests add up to three adult tickets |
| `Tickets.InfantExamples` | test/TicketService.test.js:90-99 | one adult with two infants is rejected, one adult with one infant succeeds |
| `Tickets.MalformedExamples` | src/pairtest/TicketService.js:75-80 | a request for zero tickets and a request of an unknown type are rejected with their own errors |
| `Service.CallsIffAdmissible` | src/pairtest/TicketService.js:40-52 | the collaborators are called exactly when the account id, the request list and all four rules are valid |
| `Service.PaymentPrecedesReservation` | src/pairtest/TicketService.js:47-51 | a purchase makes no call, or one payment of the priced counts followed by one reservation of the adult plus child seats, both for the purchasing account |
| `Service.TicketService.constructor` | src/pairtest/TicketService.js:27-30 | a new service has the given configuration and has made no collaborator calls |
| `Service.TicketService.ValidateTicketTypeRequests` | src/pairtest/TicketService.js:66-82 | the loop returns the rejection of the request list, none exactly when the list is non-empty and every request is well formed |
| `Service.TicketService.CountTicketsByType` | src/pairtest/TicketService.js:87-99 | the loop's counts are, for each type, the sum of the quantities of the requests of that type |
| `Service.TicketService.PurchaseTickets` | src/pairtest/TicketService.js:40-52 | the returned error is the purchase's first rejection, and the collaborator log grows by exactly the calls of the purchase: none on a rejection, payment then reservation on success |

## Left out

- Reading the prices and the limit from environment variables (`parseIntegerEnv`, the `parseInt` rules) is I/O. The configuration is a value passed to the constructor, with the defaults as a constant.
- The payment and seat-reservation collaborators are not part of this model. They appear only as the calls they receive, in order. Nothing models a collaborator that throws, so the model does not show that a failed payment skips the reservation.
- JavaScript numbers are doubles. The model uses unbounded integers, so it agrees with the source only while counts and amounts stay below 2^53.
- The `TicketTypeRequest` class of src/pairtest/lib, with any checks its constructor makes, is not part of this model. Quantities are integers, and a type name is any string. A non-integer quantity such as 1.5 is not modelled.
- The `instanceof TicketTypeRequest` check is kept as the `NotATicketTypeRequest` argument variant. The null or undefined request list branch is left out, because a rest parameter is always an array.
- The exception messages are not modelled. Each message is one variant of `PurchaseError`, and the limit variant carries the limit it names.
- The test suite's assignment of mock services to public properties is test harness only. The class never reads those properties.
