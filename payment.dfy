/** The payment service: `/health` and `/process`. */
module PaymentService {
  import opened Wrappers
  import opened Metrics
  import opened Lifecycle

  const Service: string := "payment"

  /** `/health` fails when `rand.Float32() < 0.04`. */
  const HealthFailBelow: real := 0.04

  /** A payment fails when `rand.Float32() < 0.1`. */
  const PaymentFailBelow: real := 0.1

  /** The processing delay is `rand.Intn(500) + 200` milliseconds. */
  const DelaySpan: nat := 500
  const DelayBase: nat := 200

  /** Transaction ids draw `rand.Intn(1000000000)`. */
  const IdSpan: nat := 1_000_000_000

  /** The decoded `/process` body. */
  datatype PaymentRequest = PaymentRequest(amount: real, currency: string, cardToken: string, userId: string)

  /** Process start-up: the registry is empty except that the health gauge reads 1. */
  method Start() returns (reg: Registry)
    ensures fresh(reg)
    ensures reg.View() == Empty.(health := map[Service := 1])
  {
    reg := new Registry();
    reg.SetHealth(Service, 1);
  }

  method HealthHandler(reg: Registry, m: string, draw: Draw, work: nat) returns (status: int, body: Body)
    modifies reg
    ensures var x := HealthPlan(Service, HealthFailBelow, m, draw, work);
      status == x.status && body == x.body && reg.View() == ApplyAll(old(reg.View()), x.updates)
  {
    status, body := CheckHealth(reg, Service, HealthFailBelow, m, draw, work);
  }

  /** A Unicode scalar value: a code point that is not a surrogate. */
  predicate IsScalar(n: int) {
    0 <= n < 0xD800 || 0xE000 <= n < 0x11_0000
  }

  /** Go's `rune(n)`: the low 32 bits of n, read as a signed 32-bit integer. */
  function Int32(n: int): (r: int)
    ensures -0x8000_0000 <= r < 0x8000_0000
    ensures (n - r) % 0x1_0000_0000 == 0
  {
    (n + 0x8000_0000) % 0x1_0000_0000 - 0x8000_0000
  }

  /**
   * Go's `string(rune(n))`: the one character `rune(n)`, or U+FFFD when that
   * is not a Unicode scalar value.
   */
  function RuneString(n: int): (s: string)
    ensures |s| == 1
    ensures IsScalar(Int32(n)) ==> s[0] as int == Int32(n)
    ensures !IsScalar(Int32(n)) ==> s[0] == '\U{FFFD}'
    ensures -0x8000_0000 <= n < 0x8000_0000 ==> (IsScalar(n) <==> s[0] as int == n)
  {
    var r := Int32(n);
    if IsScalar(r) then [r as char] else ['\U{FFFD}']
  }

  /** The conversion wraps: 2^32 + 65 names the rune 'A'. */
  lemma RuneStringWraps()
    ensures RuneString(0x1_0000_0041) == "A"
  {
  }

  /** `generateTransactionID`: "txn_" followed by exactly one character. */
  function TransactionId(roll: nat): (id: string)
    requires roll < IdSpan
    ensures |id| == 5 && id[..4] == "txn_"
  {
    "txn_" + RuneString(roll)
  }

  /**
   * The id tells the draw apart only while the draw is a Unicode scalar
   * value; every larger draw (all but about 0.1% of them) gives the same id.
   */
  lemma TransactionIdCollisions(a: nat, b: nat)
    requires a < IdSpan && b < IdSpan
    ensures IsScalar(a) && IsScalar(b) ==> (TransactionId(a) == TransactionId(b) <==> a == b)
    ensures a >= 0x11_0000 && b >= 0x11_0000 ==> TransactionId(a) == TransactionId(b) == "txn_\U{FFFD}"
  {
  }

  /**
   * `/process`.  `req` is None when the body did not decode; `delayRoll` is
   * the `rand.Intn(500)` draw, `draw` the failure draw and `idRoll` the
   * transaction-id draw; `timestamp` is the RFC 3339 clock reading; `work`
   * is the time spent outside the delay.
   */
  function ProcessPlan(m: string, req: Option<PaymentRequest>, delayRoll: nat, draw: Draw, idRoll: nat,
                       timestamp: string, work: nat): Exchange
    requires delayRoll < DelaySpan && idRoll < IdSpan
  {
    match req
    case None =>
      Exchange(400, ErrorText("Invalid request"), None, [IncRequests((m, "/process", "400"))])
    case Some(p) =>
      var delay := delayRoll + DelayBase;
      if draw < PaymentFailBelow then
        Exchange(400, ErrorText("Payment failed"), Some(delay),
                 [IncRequests((m, "/process", "400")), IncProcessed("failed"),
                  ObserveDuration((m, "/process"), delay + work)])
      else
        Exchange(200, Receipt(TransactionId(idRoll), p.amount, "success", timestamp), Some(delay),
                 [IncRequests((m, "/process", "200")), IncProcessed("success"),
                  ObserveAmount(p.currency, p.amount), ObserveDuration((m, "/process"), delay + work)])
  }

  method ProcessPaymentHandler(reg: Registry, m: string, req: Option<PaymentRequest>, delayRoll: nat, draw: Draw,
                               idRoll: nat, timestamp: string, work: nat)
    returns (status: int, body: Body, slept: Option<nat>)
    requires delayRoll < DelaySpan && idRoll < IdSpan
    modifies reg
    ensures var x := ProcessPlan(m, req, delayRoll, draw, idRoll, timestamp, work);
      status == x.status && body == x.body && slept == x.slept && reg.View() == ApplyAll(old(reg.View()), x.updates)
  {
    if req.None? {
      reg.IncRequests((m, "/process", "400"));
      return 400, ErrorText("Invalid request"), None;
    }
    var p := req.value;
    var delay := delayRoll + DelayBase;
    slept := Some(delay);
    if draw < PaymentFailBelow {
      reg.IncRequests((m, "/process", "400"));
      reg.IncProcessed("failed");
      reg.ObserveDuration((m, "/process"), delay + work);
      ApplyAllSteps(old(reg.View()), ProcessPlan(m, req, delayRoll, draw, idRoll, timestamp, work).updates);
      return 400, ErrorText("Payment failed"), slept;
    }
    var transactionId := TransactionId(idRoll);
    body := Receipt(transactionId, p.amount, "success", timestamp);
    reg.IncRequests((m, "/process", "200"));
    reg.IncProcessed("success");
    reg.ObserveAmount(p.currency, p.amount);
    reg.ObserveDuration((m, "/process"), delay + work);
    ApplyAllSteps(old(reg.View()), ProcessPlan(m, req, delayRoll, draw, idRoll, timestamp, work).updates);
    status := 200;
  }

  /**
   * Every outcome of `/process`.  An undecodable body is a 400 that only
   * counts the request: no delay, no payment tallies, no duration.  A
   * decoded body sleeps 200 to 699 ms; a draw below 0.1 is then a 400 that
   * counts one failed payment and observes one duration, leaving
   * payment_amount alone; any other draw is a 200 that echoes the amount with
   * status "success", counts one successful payment, observes the amount
   * once under the request's currency and observes one duration.
   */
  lemma ProcessOutcome(m: string, req: Option<PaymentRequest>, delayRoll: nat, draw: Draw, idRoll: nat,
                       timestamp: string, work: nat)
    requires delayRoll < DelaySpan && idRoll < IdSpan
    ensures var x := ProcessPlan(m, req, delayRoll, draw, idRoll, timestamp, work);
      && CountedOnce(x, m, "/process")
      && Untouched(x.updates, Health)
      && (req.None? ==> x.status == 400 && x.slept == None && Untimed(x) && NoPaymentTallies(x))
      && (req.Some? ==>
            && x.slept.Some? && 200 <= x.slept.value <= 699
            && TimedOnce(x, m, "/process", x.slept.value + work)
            && (x.status == 400 <==> draw < PaymentFailBelow)
            && (x.status == 200 <==> draw >= PaymentFailBelow))
      && (req.Some? && x.status == 400 ==>
            Sole(x.updates, IncProcessed("failed")) && Untouched(x.updates, Amounts))
      && (x.status == 200 ==>
            && x.body.Receipt? && x.body.amount == req.value.amount && x.body.status == "success"
            && x.body.transactionId == TransactionId(idRoll)
            && Sole(x.updates, IncProcessed("success"))
            && Sole(x.updates, ObserveAmount(req.value.currency, req.value.amount)))
  {
    StatusLabels();
    var us := ProcessPlan(m, req, delayRoll, draw, idRoll, timestamp, work).updates;
    OneEachSole(us);
    assert Sole(us, us[0]);
    if |us| > 1 {
      assert Sole(us, us[1]) && Sole(us, us[2]);
    }
    if |us| > 3 {
      assert Sole(us, us[3]);
    }
  }
}
