# Mock observability services: request handling, modelled in Dafny

The repository contains three mock Go services: auth, payment and product. They exist to feed an
observability stack. Each HTTP handler is a short, fixed decision procedure. It may sleep for a
random number of milliseconds and may fail on a random draw. It then writes a status code and a
body, and records Prometheus metrics:

- `requests_total`, labelled (method, endpoint, status);
- `request_duration_seconds`, labelled (method, endpoint);
- `service_health`, a gauge labelled by service;
- for payment only, `payments_processed_total` (labelled by outcome) and `payment_amount`
  (labelled by currency).

This project models those handlers. Every source of nondeterminism becomes a parameter:

- each `rand.Float32()` draw is a `Draw`, a real in [0, 1);
- each `rand.Intn(n)` draw is a natural `roll` with `roll < n`;
- JSON decoding is an `Option` of the decoded request (None: the body did not decode);
- the `Authorization` header and the `{id}` path variable are strings;
- the clock is `work` (milliseconds spent outside the simulated sleep), `unixSeconds` for the
  login token, and `timestamp` for the payment receipt.

With those inputs every handler is deterministic.

Structure:

- `strconv.dfy`, module `Strconv`: Go's `strconv.Atoi` (64-bit `int`) and the decimal formatting
  behind `%d`, with the round trip between them.
- `metrics.dfy`, module `Metrics`: the registry as a class `Registry` whose five map fields mirror
  the five Go metric vectors. Histograms keep the sequence of observed values per label tuple.
  `Update` names one recording call. `ApplyAll` gives the registry after a run of updates, and one
  lemma per table says exactly what a run does to that table.
- `catalog.dfy`, module `Catalog`: the static product catalogue and the first-match lookup by id.
- `lifecycle.dfy`, module `Lifecycle`: what the services share.
  - `Exchange` is one handled request: status, body, the delay slept if any, and the metric updates
    in issue order.
  - The `/health` handler, identical in the three services apart from the service name and the
    failure threshold.
  - Run-level lemmas: counters never decrease; the gauge shows the latest health check.
- `auth.dfy`, `payment.dfy`, `product.dfy`: one module per service.

Each handler appears twice:

- a pure function (`LoginPlan`, `ProcessPlan`, `LookupPlan`, ...) giving its `Exchange`;
- a method (`LoginHandler`, ...) that performs the same steps, in the same order, on a `Registry`.
  Each method is proved to return the function's status, body and delay, and to leave the registry
  at `ApplyAll` of the function's updates.

What the source promises is proved about the function, in one `...Outcome` lemma per handler. These
lemmas use four predicates:

- `CountedOnce`: exactly one `requests_total` increment, labelled with the status actually written
  and the route template;
- `TimedOnce`: exactly one duration observation; `Untimed`: none;
- `Sole`: exactly one write to a metric vector; `Untouched`: none.

The `Metrics` lemmas turn these predicates into exact counter values and histogram contents.

The handlers are uneven, and the model keeps that. These paths increment a counter but observe no
duration:

- health failures;
- undecodable bodies;
- `/validate` refusals;
- product ids that do not parse.

## Model

| member | source | states |
|---|---|---|
| `Strconv.Atoi` | services/product-service/main.go:101 | A parse succeeds exactly on an optional sign followed by digits whose value fits in 64 bits, and then gives that value. A numeral out of range is a range error, and a syntax error is never a numeral |
| `Strconv.LeadingDigits` | services/product-service/main.go:101 | The digit run that Go's left-to-right scan reads before it stops: a prefix of the text, all digits, followed by a non-digit or the end |
| `Strconv.ShortNonNumeralIsSyntaxError` | services/product-service/main.go:101 | Any text under 19 bytes that is not a numeral is a syntax error |
| `Strconv.OverflowBeforeJunk` | services/product-service/main.go:101 | Digits worth more than 2^64 - 1 followed by a non-digit are a range error, not a syntax error, with or without a sign ("99999999999999999999x") |
| `Strconv.Digits` | services/auth-service/main.go:99 | The decimal text of a natural number is a non-empty run of digits with no leading zero |
| `Strconv.DecimalValueOfDigits` | services/auth-service/main.go:99 | The digits of n read back as n |
| `Strconv.AtoiOfItoa` | services/product-service/main.go:101 | Parsing the decimal text of n gives n back when n fits in 64 bits, and a range error otherwise |
| `Strconv.ItoaInjective` | services/auth-service/main.go:99 | Two integers with the same decimal text are equal |
| `Metrics.Registry.constructor` | services/payment-service/main.go:30-72 | A new registry has recorded nothing in any of its five vectors |
| `Metrics.Registry.IncRequests` | services/payment-service/main.go:87 | Incrementing a request counter raises that label tuple's count by one (from zero if unseen) and changes nothing else |
| `Metrics.Registry.ObserveDuration` | services/payment-service/main.go:94 | An observation is appended to that label tuple's observations; nothing else changes |
| `Metrics.Registry.SetHealth` | services/payment-service/main.go:86 | The gauge for the service is overwritten; nothing else changes |
| `Metrics.Registry.IncProcessed` | services/payment-service/main.go:116 | The payments-processed count for the outcome rises by one; nothing else changes |
| `Metrics.Registry.ObserveAmount` | services/payment-service/main.go:133 | The amount is appended to the currency's observations; nothing else changes |
| `Metrics.ApplyAllRequests` | services/payment-service/main.go:87 | After a run of updates, each request counter equals its old value plus the number of increments naming it, so no counter decreases |
| `Metrics.ApplyAllDurations` | services/payment-service/main.go:94 | After a run of updates, each duration histogram holds its old observations followed by those the run made under its labels |
| `Metrics.ApplyAllHealth` | services/payment-service/main.go:86 | After a run of updates, each gauge holds the last value the run set, or its old value if the run set none |
| `Metrics.ApplyAllProcessed` | services/payment-service/main.go:116 | After a run of updates, each payments-processed count equals its old value plus the increments naming it |
| `Metrics.ApplyAllAmounts` | services/payment-service/main.go:133 | After a run of updates, each currency's amount histogram holds its old observations followed by the run's |
| `Metrics.ApplyAllConcat` | services/payment-service/main.go:100-138 | Applying two runs of updates one after the other equals applying their concatenation |
| `Metrics.SoleRequest` | services/payment-service/main.go:87 | A run with one request-counter increment raises that label tuple by exactly one and no other |
| `Metrics.SoleDuration` | services/payment-service/main.go:94 | A run with one duration observation observes that value under its labels and nothing under any other |
| `Metrics.SoleHealth` | services/payment-service/main.go:86 | A run with one gauge write leaves that value as the last one set, for that service only |
| `Metrics.SoleProcessed` | services/payment-service/main.go:116 | A run with one payments-processed increment raises that outcome by exactly one and no other |
| `Metrics.SoleAmount` | services/payment-service/main.go:133 | A run with one amount observation observes that amount under its currency only |
| `Metrics.UntouchedProjections` | services/payment-service/main.go:104-107 | A run that never touches a metric vector changes none of its values |
| `Catalog.FirstMatch` | services/product-service/main.go:111-119 | The lookup returns the position of the first product with the id, scanning from the front, or nothing exactly when no product has it |
| `Catalog.CatalogueIds` | services/product-service/main.go:25-31 | The catalogue holds five products with ids 1 to 5 in order, all distinct |
| `Catalog.LookupByCatalogueId` | services/product-service/main.go:25-31 | An id from 1 to 5 is found at position id - 1; every other id is found nowhere |
| `Catalog.Keyboard` | services/product-service/main.go:28 | Id 3 is the keyboard, priced 79.99, with 75 in stock |
| `Lifecycle.StatusLabels` | services/product-service/main.go:103 | The status labels "200", "400", "401", "404", "500" are the decimal text of the status codes written |
| `Lifecycle.CheckHealth` | services/payment-service/main.go:82-98 | The health handler returns the status and body of the health exchange and leaves the registry as its updates dictate |
| `Lifecycle.HealthOutcome` | services/payment-service/main.go:85-97 | A health check answers 500 exactly when the draw is below the threshold, else 200. Either way: one request-counter increment with that status, the gauge set to 0 or 1, no delay. Only the 200 path observes a duration. The 200 body is the healthy status and service name; the 500 body is "Service unhealthy" |
| `Lifecycle.NothingDecreases` | services/payment-service/main.go:87-134 | Over any run of handled requests no request or payments-processed counter decreases, and earlier observations stay a prefix of later ones |
| `Lifecycle.GaugeShowsLatestCheck` | services/payment-service/main.go:86-92 | When the last request of a run is a health check, the gauge reads 1 if it answered 200 and 0 if it answered 500, whatever came before |
| `Lifecycle.CountedOnceEffect` | services/product-service/main.go:113 | A request counted once raises its own (method, endpoint, status) tuple by one and leaves every other tuple as it was |
| `Lifecycle.TimingEffect` | services/product-service/main.go:114 | A request timed once appends one duration under its (method, endpoint); an untimed one leaves every duration histogram as it was |
| `AuthService.Start` | services/auth-service/main.go:141 | At start-up the registry is empty except that the auth health gauge reads 1 |
| `AuthService.HealthHandler` | services/auth-service/main.go:61-78 | The auth health check is the shared health exchange with service "auth" and threshold 0.05 |
| `AuthService.LoginHandler` | services/auth-service/main.go:80-111 | The login handler returns the status, body and delay of the login exchange and leaves the registry as its updates dictate |
| `AuthService.LoginOutcome` | services/auth-service/main.go:84-110 | An undecodable body is a 400 counted once, with no delay and no duration. Otherwise the handler sleeps roll < 100 ms. It answers 200 exactly when username and password are non-empty and the draw exceeds 0.1, else 401. Both answers count once and observe one duration of at least the delay. The 200 body holds the token, "user_" + username and success true |
| `AuthService.EmptyCredentialsRefused` | services/auth-service/main.go:94 | An empty username or password always yields 401, whatever the draws |
| `AuthService.TokenCarriesTime` | services/auth-service/main.go:99 | The token is "token_" + username + "_" followed by decimal text that parses back to the Unix time |
| `AuthService.ValidateHandler` | services/auth-service/main.go:113-138 | The validate handler returns the status and body of the validate exchange and leaves the registry as its updates dictate |
| `AuthService.ValidateOutcome` | services/auth-service/main.go:116-137 | Validation answers 200 exactly when the header is non-empty and the draw is at least 0.05, else 401. An empty header gets "Missing token". One counter increment either way. Only 200 observes a duration. There is no delay |
| `AuthService.ValidateIgnoresTokenContent` | services/auth-service/main.go:116-124 | Any two non-empty Authorization headers are handled identically: the header's content is never inspected |
| `PaymentService.Start` | services/payment-service/main.go:145 | At start-up the registry is empty except that the payment health gauge reads 1 |
| `PaymentService.HealthHandler` | services/payment-service/main.go:82-98 | The payment health check is the shared health exchange with service "payment" and threshold 0.04 |
| `PaymentService.Int32` | services/payment-service/main.go:141 | `rune(n)` keeps n modulo 2^32, as a signed 32-bit value |
| `PaymentService.RuneString` | services/payment-service/main.go:141 | Converting an integer to a one-rune string gives one character: the truncated 32-bit value if it is a Unicode scalar value, else U+FFFD. Inside the 32-bit range, the character is n exactly when n is a scalar value |
| `PaymentService.RuneStringWraps` | services/payment-service/main.go:141 | The conversion wraps: 2^32 + 65 gives "A" |
| `PaymentService.TransactionId` | services/payment-service/main.go:140-142 | A transaction id is "txn_" followed by exactly one character |
| `PaymentService.TransactionIdCollisions` | services/payment-service/main.go:141 | Distinct draws give distinct ids only while they are scalar values; all draws of 0x110000 or more give the same id "txn_" + U+FFFD |
| `PaymentService.ProcessPaymentHandler` | services/payment-service/main.go:100-138 | The payment handler returns the status, body and delay of the payment exchange and leaves the registry as its updates dictate |
| `PaymentService.ProcessOutcome` | services/payment-service/main.go:104-137 | An undecodable body is a 400 counted once, with no delay, payment tallies or duration. Otherwise the handler sleeps 200 to 699 ms and observes one duration. A draw below 0.1 is then a 400 with one failed payment and no amount. Any other draw is a 200 echoing the amount with status "success": one successful payment, one amount under the request's currency |
| `ProductService.Start` | services/product-service/main.go:127 | At start-up the registry is empty except that the product health gauge reads 1 |
| `ProductService.HealthHandler` | services/product-service/main.go:66-82 | The product health check is the shared health exchange with service "product" and threshold 0.03 |
| `ProductService.GetProductsHandler` | services/product-service/main.go:84-95 | The listing handler returns the status, body and delay of the listing exchange and leaves the registry as its updates dictate |
| `ProductService.ListOutcome` | services/product-service/main.go:84-94 | The listing always answers 200 with the five products in declaration order, after a delay below 200 ms, counted once and timed once |
| `ProductService.GetProductHandler` | services/product-service/main.go:97-124 | The lookup handler scans the catalogue with an early return. It returns the status, body and delay of the lookup exchange and leaves the registry as its updates dictate |
| `ProductService.LookupOutcome` | services/product-service/main.go:100-123 | An id that does not parse is a 400 with no delay and no duration. A parsed id waits below 150 ms and is timed once. It answers 200 with the first product carrying the id when there is one, else 404. Every answer counts once under "/products/{id}", never the raw id |
| `ProductService.KeyboardLookup` | services/product-service/main.go:28 | Looking up "3" answers 200 with the keyboard at 79.99 and 75 in stock |
| `ProductService.UnknownIdNotFound` | services/product-service/main.go:121-123 | Any 64-bit id outside 1 to 5, written in decimal (999, 0, -1), answers 404 |
| `ProductService.BadIdRejected` | services/product-service/main.go:101-105 | The empty id, "abc" and a value just past the 64-bit range answer 400 |

Three facts about the code that the model keeps as written:

- Several exit paths increment the request counter but observe no duration: failed health checks,
  undecodable bodies, `/validate` refusals, and ids that do not parse.
- `generateTransactionID` yields "txn_" and a single character. `PaymentService.TransactionIdCollisions`
  shows that every draw of 0x110000 or more gives the same id, which is all but about 0.1% of draws.
- Each handler hard-codes its failure threshold and delay span. The model keeps those exact
  constants. Nothing in the code makes them configurable.

## Left out

- HTTP plumbing is I/O and configuration, not handler logic. This covers gorilla/mux routing,
  `http.ListenAndServe`, response writers and headers, `log`, and the `PORT` lookup with its
  defaults.
- `http.Error` appends a newline to its message. `ErrorText` holds the message without it.
- The `/metrics` exposition, `MustRegister`, and Prometheus bucket accumulation (`DefBuckets`, the
  amount buckets) are library code. A histogram is modelled as the sequence of values it has
  observed; its buckets, sum and count are functions of that sequence.
- JSON encoding and decoding are library code. Decoding is an `Option` parameter: whether it
  succeeded, and the decoded fields.
- `time.Sleep`, `time.Now` and RFC 3339 formatting are effects of the clock. The delay is returned
  in milliseconds (`slept`). The clock enters as parameters. Durations are recorded in whole
  milliseconds, not float seconds.
- `rand` is the random source. Its draws are parameters. Float32 draws are exact reals compared
  with the exact thresholds 0.03, 0.04, 0.05 and 0.1; float32 rounding is not modelled.
- Prices and amounts are exact reals that are only echoed and observed, not float64.
- The source updates the metric registry from concurrent requests. The model handles one request
  at a time; concurrency is not modelled.
- The k6 load-test scripts `tests/load-test.js` and `realistic-load-test.js` only generate
  network traffic. They contain no handler logic.
