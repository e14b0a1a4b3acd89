/**
 * What the three services share: the shape of a handled request, the
 * response bodies, and the `/health` handler, which the three services
 * implement identically apart from the service name and the failure
 * threshold.
 *
 * A handler is modelled twice: as a pure function giving its Exchange (the
 * status, the body, the simulated delay and the metric updates in the order
 * the handler issues them), and as a method that performs the same steps on
 * a Registry and is proved to leave it as ApplyAll of those updates.
 */
module Lifecycle {
  import opened Wrappers
  import opened Metrics
  import opened Catalog
  import Strconv

  /** A draw of Go's `rand.Float32()`, a number in [0, 1); float32 rounding is not modelled. */
  type Draw = r: real | 0.0 <= r < 1.0

  /** The response bodies the services write. */
  datatype Body =
    | ErrorText(message: string)                 // http.Error's text/plain message
    | Healthy(status: string, service: string)   // {"status", "service"}
    | LoginOk(token: string, userId: string, success: bool)
    | Validated(valid: bool, userId: string)
    | Receipt(transactionId: string, amount: real, status: string, timestamp: string)
    | ProductList(products: seq<Product>)
    | ProductItem(product: Product)

  /**
   * One handled request: the status code and body written, the simulated
   * delay in milliseconds if the handler slept, and the metric updates in
   * the order the handler issues them.
   */
  datatype Exchange = Exchange(status: int, body: Body, slept: Option<nat>, updates: seq<Update>)

  /** The status label a handler writes for a status code. */
  function StatusLabel(status: int): string {
    Strconv.Itoa(status)
  }

  lemma StatusLabels()
    ensures StatusLabel(200) == "200" && StatusLabel(400) == "400" && StatusLabel(401) == "401"
    ensures StatusLabel(404) == "404" && StatusLabel(500) == "500"
  {
  }

  /**
   * requests_total is incremented exactly once, under
   * (m, endpoint, the status actually written); by SoleRequest that label
   * tuple rises by one and every other stays as it was.
   */
  ghost predicate CountedOnce(x: Exchange, m: string, endpoint: string) {
    Sole(x.updates, IncRequests((m, endpoint, StatusLabel(x.status))))
  }

  /** request_duration observes exactly one value, `ms`, under (m, endpoint). */
  ghost predicate TimedOnce(x: Exchange, m: string, endpoint: string, ms: nat) {
    Sole(x.updates, ObserveDuration((m, endpoint), ms))
  }

  /** request_duration observes nothing. */
  ghost predicate Untimed(x: Exchange) {
    Untouched(x.updates, Durations)
  }

  /** payments_processed and payment_amount are left alone. */
  ghost predicate NoPaymentTallies(x: Exchange) {
    Untouched(x.updates, Processed) && Untouched(x.updates, Amounts)
  }

  /**
   * `/health`: a draw below `failBelow` reports the service unhealthy (500)
   * and observes no duration; otherwise it reports healthy (200) and
   * observes the time spent, `work` milliseconds.
   */
  function HealthPlan(service: string, failBelow: real, m: string, draw: Draw, work: nat): Exchange {
    if draw < failBelow then
      Exchange(500, ErrorText("Service unhealthy"), None,
               [SetHealth(service, 0), IncRequests((m, "/health", "500"))])
    else
      Exchange(200, Healthy("healthy", service), None,
               [SetHealth(service, 1), IncRequests((m, "/health", "200")), ObserveDuration((m, "/health"), work)])
  }

  method CheckHealth(reg: Registry, service: string, failBelow: real, m: string, draw: Draw, work: nat)
    returns (status: int, body: Body)
    modifies reg
    ensures var x := HealthPlan(service, failBelow, m, draw, work);
      status == x.status && body == x.body && reg.View() == ApplyAll(old(reg.View()), x.updates)
  {
    if draw < failBelow {
      reg.SetHealth(service, 0);
      reg.IncRequests((m, "/health", "500"));
      ApplyAllSteps(old(reg.View()), HealthPlan(service, failBelow, m, draw, work).updates);
      return 500, ErrorText("Service unhealthy");
    }
    reg.SetHealth(service, 1);
    reg.IncRequests((m, "/health", "200"));
    reg.ObserveDuration((m, "/health"), work);
    ApplyAllSteps(old(reg.View()), HealthPlan(service, failBelow, m, draw, work).updates);
    return 200, Healthy("healthy", service);
  }

  /**
   * The two outcomes of a health check, each with its complete effect on the
   * registry: status 500 exactly when the draw is below the threshold; one
   * counter increment labelled with that status; the gauge set to 0 or 1;
   * a duration observed only on the healthy path.
   */
  lemma HealthOutcome(service: string, failBelow: real, m: string, draw: Draw, work: nat)
    ensures var x := HealthPlan(service, failBelow, m, draw, work);
      && (x.status == 500 <==> draw < failBelow)
      && (x.status == 200 <==> draw >= failBelow)
      && CountedOnce(x, m, "/health")
      && Sole(x.updates, SetHealth(service, if x.status == 200 then 1 else 0))
      && (if x.status == 200 then TimedOnce(x, m, "/health", work) else Untimed(x))
      && NoPaymentTallies(x)
      && x.slept == None
      && (x.status == 200 ==> x.body == Healthy("healthy", service))
      && (x.status == 500 ==> x.body == ErrorText("Service unhealthy"))
  {
    StatusLabels();
    var us := HealthPlan(service, failBelow, m, draw, work).updates;
    OneEachSole(us);
    assert Sole(us, us[0]) && Sole(us, us[1]);
    if |us| > 2 {
      assert Sole(us, us[2]);
    }
  }

  /** The registry after serving the exchanges one after another, in order. */
  function Serve(s: Snapshot, xs: seq<Exchange>): Snapshot
    decreases |xs|
  {
    if xs == [] then s else ApplyAll(Serve(s, xs[..|xs| - 1]), xs[|xs| - 1].updates)
  }

  /**
   * Over any run of requests no counter decreases and no histogram loses an
   * observation: requests_total and payments_processed only grow, and the
   * observations recorded before are a prefix of those recorded after.
   */
  lemma {:induction false} NothingDecreases(s: Snapshot, xs: seq<Exchange>, k: RequestKey, d: DurationKey, o: string, c: string)
    ensures Count(s.requests, k) <= Count(Serve(s, xs).requests, k)
    ensures Count(s.processed, o) <= Count(Serve(s, xs).processed, o)
    ensures Observations(s.durations, d) <= Observations(Serve(s, xs).durations, d)
    ensures Observations(s.amounts, c) <= Observations(Serve(s, xs).amounts, c)
    decreases |xs|
  {
    if xs != [] {
      var before := Serve(s, xs[..|xs| - 1]);
      var us := xs[|xs| - 1].updates;
      NothingDecreases(s, xs[..|xs| - 1], k, d, o, c);
      ApplyAllRequests(before, us, k);
      ApplyAllProcessed(before, us, o);
      ApplyAllDurations(before, us, d);
      ApplyAllAmounts(before, us, c);
    }
  }

  /**
   * The health gauge shows the outcome of the most recent health check: if
   * the last request of a run was a health check of `service`, the gauge
   * reads 1 if it answered 200 and 0 if it answered 500, whatever came
   * before.
   */
  lemma GaugeShowsLatestCheck(s: Snapshot, xs: seq<Exchange>, service: string, failBelow: real, m: string, draw: Draw, work: nat)
    requires xs != [] && xs[|xs| - 1] == HealthPlan(service, failBelow, m, draw, work)
    ensures Gauge(Serve(s, xs).health, service) == Some(if xs[|xs| - 1].status == 200 then 1 else 0)
  {
    var x := xs[|xs| - 1];
    HealthOutcome(service, failBelow, m, draw, work);
    SoleHealth(x.updates, service, if x.status == 200 then 1 else 0, service);
    ApplyAllHealth(Serve(s, xs[..|xs| - 1]), x.updates, service);
  }

  /**
   * What CountedOnce means for the registry: the request's own label tuple
   * rises by one and every other label tuple keeps its value.
   */
  lemma CountedOnceEffect(s: Snapshot, x: Exchange, m: string, endpoint: string, k: RequestKey)
    requires CountedOnce(x, m, endpoint)
    ensures Count(ApplyAll(s, x.updates).requests, k)
         == Count(s.requests, k) + if k == (m, endpoint, StatusLabel(x.status)) then 1 else 0
  {
    SoleRequest(x.updates, (m, endpoint, StatusLabel(x.status)), k);
    ApplyAllRequests(s, x.updates, k);
  }

  /** What TimedOnce and Untimed mean for the registry's duration histograms. */
  lemma TimingEffect(s: Snapshot, x: Exchange, m: string, endpoint: string, ms: nat, d: DurationKey)
    ensures TimedOnce(x, m, endpoint, ms) ==>
      Observations(ApplyAll(s, x.updates).durations, d)
        == Observations(s.durations, d) + if d == (m, endpoint) then [ms] else []
    ensures Untimed(x) ==> Observations(ApplyAll(s, x.updates).durations, d) == Observations(s.durations, d)
  {
    ApplyAllDurations(s, x.updates, d);
    if TimedOnce(x, m, endpoint, ms) {
      SoleDuration(x.updates, (m, endpoint), ms, d);
    }
    UntouchedProjections(x.updates, ("", "", ""), d, "", "", "");
  }
}
