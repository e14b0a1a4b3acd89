/**
 * The Prometheus registry of one service process, reduced to what the
 * handlers do with it: `requests_total` counters labelled
 * (method, endpoint, status), `request_duration` histograms labelled
 * (method, endpoint), the `service_health` gauge labelled by service name, and
 * for the payment service the `payments_processed_total` counter labelled by
 * outcome and the `payment_amount` histogram labelled by currency.  A
 * histogram keeps the sequence of values observed under each label tuple;
 * its bucket counts, sum and count are functions of that sequence.
 */
module Metrics {
  import opened Wrappers

  /** (method, endpoint, status) */
  type RequestKey = (string, string, string)

  /** (method, endpoint) */
  type DurationKey = (string, string)

  /** One recording operation, as a handler issues it. */
  datatype Update =
    | IncRequests(key: RequestKey)                // requestsTotal.WithLabelValues(..).Inc()
    | ObserveDuration(on: DurationKey, ms: nat)   // requestDuration.WithLabelValues(..).Observe(..)
    | SetHealth(service: string, value: int)      // serviceHealth.WithLabelValues(..).Set(..)
    | IncProcessed(outcome: string)               // paymentsProcessed.WithLabelValues(..).Inc()
    | ObserveAmount(currency: string, amount: real) // paymentAmount.WithLabelValues(..).Observe(..)

  /** The contents of the registry at one moment. */
  datatype Snapshot = Snapshot(
    requests: map<RequestKey, nat>,
    durations: map<DurationKey, seq<nat>>,
    health: map<string, int>,
    processed: map<string, nat>,
    amounts: map<string, seq<real>>)

  /** A registry in which nothing has been recorded yet. */
  const Empty: Snapshot := Snapshot(map[], map[], map[], map[], map[])

  /** A counter's value; a label tuple never incremented reads as zero. */
  function Count<K>(m: map<K, nat>, k: K): nat {
    if k in m then m[k] else 0
  }

  /** The values a histogram has observed under one label tuple, oldest first. */
  function Observations<K, V>(m: map<K, seq<V>>, k: K): seq<V> {
    if k in m then m[k] else []
  }

  /** A gauge's value, or None if it was never set. */
  function Gauge(m: map<string, int>, service: string): Option<int> {
    if service in m then Some(m[service]) else None
  }

  function Apply(s: Snapshot, u: Update): Snapshot {
    match u
    case IncRequests(k) => s.(requests := s.requests[k := Count(s.requests, k) + 1])
    case ObserveDuration(k, ms) => s.(durations := s.durations[k := Observations(s.durations, k) + [ms]])
    case SetHealth(svc, v) => s.(health := s.health[svc := v])
    case IncProcessed(o) => s.(processed := s.processed[o := Count(s.processed, o) + 1])
    case ObserveAmount(c, a) => s.(amounts := s.amounts[c := Observations(s.amounts, c) + [a]])
  }

  /** The registry after the updates, applied in order. */
  function ApplyAll(s: Snapshot, us: seq<Update>): Snapshot
    decreases |us|
  {
    if us == [] then s else ApplyAll(Apply(s, us[0]), us[1..])
  }

  /** How many of the updates increment requests_total under k. */
  function Bumps(us: seq<Update>, k: RequestKey): nat
    decreases |us|
  {
    if us == [] then 0 else (if us[0] == IncRequests(k) then 1 else 0) + Bumps(us[1..], k)
  }

  /** The durations the updates observe under k, in order. */
  function DurationsOf(us: seq<Update>, k: DurationKey): seq<nat>
    decreases |us|
  {
    if us == [] then []
    else (if us[0].ObserveDuration? && us[0].on == k then [us[0].ms] else []) + DurationsOf(us[1..], k)
  }

  /** How many of the updates increment payments_processed under outcome o. */
  function ProcessedBumps(us: seq<Update>, o: string): nat
    decreases |us|
  {
    if us == [] then 0 else (if us[0] == IncProcessed(o) then 1 else 0) + ProcessedBumps(us[1..], o)
  }

  /** The amounts the updates observe under currency c, in order. */
  function AmountsOf(us: seq<Update>, c: string): seq<real>
    decreases |us|
  {
    if us == [] then []
    else (if us[0].ObserveAmount? && us[0].currency == c then [us[0].amount] else []) + AmountsOf(us[1..], c)
  }

  /** The last value the updates set the gauge of `service` to, or None if they leave it alone. */
  function LastSet(us: seq<Update>, service: string): Option<int>
    decreases |us|
  {
    if us == [] then None
    else
      var later := LastSet(us[1..], service);
      if later.Some? then later
      else if us[0].SetHealth? && us[0].service == service then Some(us[0].value)
      else None
  }

  /** The five metric vectors. */
  datatype Table = Requests | Durations | Health | Processed | Amounts

  function TableOf(u: Update): Table {
    match u
    case IncRequests(_) => Requests
    case ObserveDuration(_, _) => Durations
    case SetHealth(_, _) => Health
    case IncProcessed(_) => Processed
    case ObserveAmount(_, _) => Amounts
  }

  /** u occurs in us, and no other update in us touches u's metric vector. */
  ghost predicate Sole(us: seq<Update>, u: Update) {
    exists i :: 0 <= i < |us| && us[i] == u && forall j :: 0 <= j < |us| && j != i ==> TableOf(us[j]) != TableOf(u)
  }

  /** No update in us touches metric vector t. */
  ghost predicate Untouched(us: seq<Update>, t: Table) {
    forall j :: 0 <= j < |us| ==> TableOf(us[j]) != t
  }

  /** No two of the updates touch the same metric vector. */
  ghost predicate OneEach(us: seq<Update>) {
    forall i, j :: 0 <= i < j < |us| ==> TableOf(us[i]) != TableOf(us[j])
  }

  lemma OneEachSole(us: seq<Update>)
    requires OneEach(us)
    ensures forall i :: 0 <= i < |us| ==> Sole(us, us[i])
  {
  }

  /** Taking the first update off: what Sole and Untouched say of the rest. */
  lemma SoleTail(us: seq<Update>, u: Update)
    requires us != [] && Sole(us, u)
    ensures us[0] == u ==> Untouched(us[1..], TableOf(u))
    ensures us[0] != u ==> TableOf(us[0]) != TableOf(u) && Sole(us[1..], u)
  {
    var i :| 0 <= i < |us| && us[i] == u && forall j :: 0 <= j < |us| && j != i ==> TableOf(us[j]) != TableOf(u);
    if i > 0 {
      assert us[1..][i - 1] == u;
    }
  }

  lemma {:induction false} UntouchedProjections(us: seq<Update>, k: RequestKey, d: DurationKey, svc: string, o: string, c: string)
    ensures Untouched(us, Requests) ==> Bumps(us, k) == 0
    ensures Untouched(us, Durations) ==> DurationsOf(us, d) == []
    ensures Untouched(us, Health) ==> LastSet(us, svc) == None
    ensures Untouched(us, Processed) ==> ProcessedBumps(us, o) == 0
    ensures Untouched(us, Amounts) ==> AmountsOf(us, c) == []
    decreases |us|
  {
    if us != [] {
      UntouchedProjections(us[1..], k, d, svc, o, c);
    }
  }

  /** A sole increment raises its own label tuple by one and no other. */
  lemma {:induction false} SoleRequest(us: seq<Update>, key: RequestKey, k: RequestKey)
    requires Sole(us, IncRequests(key))
    ensures Bumps(us, k) == if k == key then 1 else 0
    decreases |us|
  {
    SoleTail(us, IncRequests(key));
    if us[0] == IncRequests(key) {
      UntouchedProjections(us[1..], k, ("", ""), "", "", "");
    } else {
      SoleRequest(us[1..], key, k);
    }
  }

  /** A sole observation is the only value observed, under its own label tuple. */
  lemma {:induction false} SoleDuration(us: seq<Update>, on: DurationKey, ms: nat, d: DurationKey)
    requires Sole(us, ObserveDuration(on, ms))
    ensures DurationsOf(us, d) == if d == on then [ms] else []
    decreases |us|
  {
    SoleTail(us, ObserveDuration(on, ms));
    if us[0] == ObserveDuration(on, ms) {
      UntouchedProjections(us[1..], ("", "", ""), d, "", "", "");
    } else {
      SoleDuration(us[1..], on, ms, d);
    }
  }

  /** A sole gauge write is the last value set, for its own service only. */
  lemma {:induction false} SoleHealth(us: seq<Update>, service: string, v: int, svc: string)
    requires Sole(us, SetHealth(service, v))
    ensures LastSet(us, svc) == if svc == service then Some(v) else None
    decreases |us|
  {
    SoleTail(us, SetHealth(service, v));
    if us[0] == SetHealth(service, v) {
      UntouchedProjections(us[1..], ("", "", ""), ("", ""), svc, "", "");
    } else {
      SoleHealth(us[1..], service, v, svc);
    }
  }

  lemma {:induction false} SoleProcessed(us: seq<Update>, outcome: string, o: string)
    requires Sole(us, IncProcessed(outcome))
    ensures ProcessedBumps(us, o) == if o == outcome then 1 else 0
    decreases |us|
  {
    SoleTail(us, IncProcessed(outcome));
    if us[0] == IncProcessed(outcome) {
      UntouchedProjections(us[1..], ("", "", ""), ("", ""), "", o, "");
    } else {
      SoleProcessed(us[1..], outcome, o);
    }
  }

  lemma {:induction false} SoleAmount(us: seq<Update>, currency: string, amount: real, c: string)
    requires Sole(us, ObserveAmount(currency, amount))
    ensures AmountsOf(us, c) == if c == currency then [amount] else []
    decreases |us|
  {
    SoleTail(us, ObserveAmount(currency, amount));
    if us[0] == ObserveAmount(currency, amount) {
      UntouchedProjections(us[1..], ("", "", ""), ("", ""), "", "", c);
    } else {
      SoleAmount(us[1..], currency, amount, c);
    }
  }

  /** ApplyAll of a short run, one update at a time. */
  lemma ApplyAllSteps(s: Snapshot, us: seq<Update>)
    requires 0 < |us| <= 4
    ensures |us| == 1 ==> ApplyAll(s, us) == Apply(s, us[0])
    ensures |us| == 2 ==> ApplyAll(s, us) == Apply(Apply(s, us[0]), us[1])
    ensures |us| == 3 ==> ApplyAll(s, us) == Apply(Apply(Apply(s, us[0]), us[1]), us[2])
    ensures |us| == 4 ==> ApplyAll(s, us) == Apply(Apply(Apply(Apply(s, us[0]), us[1]), us[2]), us[3])
  {
    var s1 := Apply(s, us[0]);
    if |us| > 1 {
      var s2 := Apply(s1, us[1]);
      assert ApplyAll(s1, us[1..]) == ApplyAll(s2, us[2..]);
      if |us| > 2 {
        var s3 := Apply(s2, us[2]);
        assert ApplyAll(s2, us[2..]) == ApplyAll(s3, us[3..]);
        if |us| > 3 {
          assert ApplyAll(s3, us[3..]) == ApplyAll(Apply(s3, us[3]), us[4..]);
        }
      }
    }
  }

  /**
   * What a run of updates does to each table, one lemma per table: every
   * counter rises by exactly the number of increments naming its label tuple
   * (so no counter ever decreases), every histogram gains exactly the values
   * observed under its label tuple, appended in order, and each gauge holds
   * the last value set.
   */
  lemma {:induction false} ApplyAllRequests(s: Snapshot, us: seq<Update>, k: RequestKey)
    ensures Count(ApplyAll(s, us).requests, k) == Count(s.requests, k) + Bumps(us, k)
    decreases |us|
  {
    if us != [] {
      ApplyAllRequests(Apply(s, us[0]), us[1..], k);
    }
  }

  lemma {:induction false} ApplyAllDurations(s: Snapshot, us: seq<Update>, d: DurationKey)
    ensures Observations(ApplyAll(s, us).durations, d) == Observations(s.durations, d) + DurationsOf(us, d)
    decreases |us|
  {
    if us != [] {
      var s1 := Apply(s, us[0]);
      ApplyAllDurations(s1, us[1..], d);
      assert Observations(s1.durations, d)
          == Observations(s.durations, d) + if us[0].ObserveDuration? && us[0].on == d then [us[0].ms] else [];
    }
  }

  lemma {:induction false} ApplyAllProcessed(s: Snapshot, us: seq<Update>, o: string)
    ensures Count(ApplyAll(s, us).processed, o) == Count(s.processed, o) + ProcessedBumps(us, o)
    decreases |us|
  {
    if us != [] {
      ApplyAllProcessed(Apply(s, us[0]), us[1..], o);
    }
  }

  lemma ApplyAmountsStep(s: Snapshot, u: Update, c: string)
    ensures Observations(Apply(s, u).amounts, c)
         == Observations(s.amounts, c) + if u.ObserveAmount? && u.currency == c then [u.amount] else []
  {
  }

  lemma {:induction false} ApplyAllAmounts(s: Snapshot, us: seq<Update>, c: string)
    ensures Observations(ApplyAll(s, us).amounts, c) == Observations(s.amounts, c) + AmountsOf(us, c)
    decreases |us|
  {
    if us != [] {
      var s1 := Apply(s, us[0]);
      var here := if us[0].ObserveAmount? && us[0].currency == c then [us[0].amount] else [];
      ApplyAllAmounts(s1, us[1..], c);
      ApplyAmountsStep(s, us[0], c);
      assert AmountsOf(us, c) == here + AmountsOf(us[1..], c);
      assert (Observations(s.amounts, c) + here) + AmountsOf(us[1..], c)
          == Observations(s.amounts, c) + (here + AmountsOf(us[1..], c));
    }
  }

  lemma {:induction false} ApplyAllHealth(s: Snapshot, us: seq<Update>, svc: string)
    ensures Gauge(ApplyAll(s, us).health, svc) == if LastSet(us, svc).Some? then LastSet(us, svc) else Gauge(s.health, svc)
    decreases |us|
  {
    if us != [] {
      ApplyAllHealth(Apply(s, us[0]), us[1..], svc);
    }
  }

  /** Handling one batch of updates and then another is handling both in order. */
  lemma {:induction false} ApplyAllConcat(s: Snapshot, us: seq<Update>, vs: seq<Update>)
    ensures ApplyAll(s, us + vs) == ApplyAll(ApplyAll(s, us), vs)
    decreases |us|
  {
    if us != [] {
      assert (us + vs)[0] == us[0] && (us + vs)[1..] == us[1..] + vs;
      ApplyAllConcat(Apply(s, us[0]), us[1..], vs);
    } else {
      assert us + vs == vs;
    }
  }

  /** The in-memory registry one service process holds. */
  class Registry {
    var requestsTotal: map<RequestKey, nat>
    var requestDuration: map<DurationKey, seq<nat>>
    var serviceHealth: map<string, int>
    var paymentsProcessed: map<string, nat>
    var paymentAmount: map<string, seq<real>>

    function View(): Snapshot
      reads this
    {
      Snapshot(requestsTotal, requestDuration, serviceHealth, paymentsProcessed, paymentAmount)
    }

    constructor ()
      ensures View() == Empty
    {
      requestsTotal, requestDuration, serviceHealth := map[], map[], map[];
      paymentsProcessed, paymentAmount := map[], map[];
    }

    method IncRequests(key: RequestKey)
      modifies this
      ensures View() == Apply(old(View()), Update.IncRequests(key))
    {
      requestsTotal := requestsTotal[key := Count(requestsTotal, key) + 1];
    }

    method ObserveDuration(on: DurationKey, ms: nat)
      modifies this
      ensures View() == Apply(old(View()), Update.ObserveDuration(on, ms))
    {
      requestDuration := requestDuration[on := Observations(requestDuration, on) + [ms]];
    }

    method SetHealth(service: string, value: int)
      modifies this
      ensures View() == Apply(old(View()), Update.SetHealth(service, value))
    {
      serviceHealth := serviceHealth[service := value];
    }

    method IncProcessed(outcome: string)
      modifies this
      ensures View() == Apply(old(View()), Update.IncProcessed(outcome))
    {
      paymentsProcessed := paymentsProcessed[outcome := Count(paymentsProcessed, outcome) + 1];
    }

    method ObserveAmount(currency: string, amount: real)
      modifies this
      ensures View() == Apply(old(View()), Update.ObserveAmount(currency, amount))
    {
      paymentAmount := paymentAmount[currency := Observations(paymentAmount, currency) + [amount]];
    }
  }
}
