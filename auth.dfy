/** The auth service: `/health`, `/login` and `/validate`. */
module AuthService {
  import opened Wrappers
  import opened Metrics
  import opened Lifecycle
  import Strconv

  const Service: string := "auth"

  /** `/health` fails when `rand.Float32() < 0.05`. */
  const HealthFailBelow: real := 0.05

  /** `/login` succeeds only when `rand.Float32() > 0.1`. */
  const LoginPassAbove: real := 0.1

  /** `/validate` fails when `rand.Float32() < 0.05`. */
  const ValidateFailBelow: real := 0.05

  /** The login delay is `rand.Intn(100)` milliseconds. */
  const LoginDelaySpan: nat := 100

  /** The decoded `/login` body. */
  datatype AuthRequest = AuthRequest(username: string, password: string)

  /** Process start-up: the registry is empty except that the health gauge reads 1. */
  method Start() returns (reg: Registry)
    ensures fresh(reg)
    ensures reg.View() == Empty.(health := map[Service := 1])
  {
    reg := new Registry();
    reg.SetHealth(Service, 1);
  }

  method HealthHandler(reg: Registry, m: string, draw: Draw, work: nat) returns (status: int, body: Body)
    modifies reg
    ensures var x := HealthPlan(Service, HealthFailBelow, m, draw, work);
      status == x.status && body == x.body && reg.View() == ApplyAll(old(reg.View()), x.updates)
  {
    status, body := CheckHealth(reg, Service, HealthFailBelow, m, draw, work);
  }

  /** The success condition of `/login`; the draw is only taken when both fields are non-empty. */
  predicate LoginSucceeds(req: AuthRequest, draw: Draw) {
    req.username != "" && req.password != "" && draw > LoginPassAbove
  }

  /** `fmt.Sprintf("token_%s_%d", username, unixSeconds)` */
  function Token(username: string, unixSeconds: int): string {
    "token_" + username + "_" + Strconv.Itoa(unixSeconds)
  }

  /** `fmt.Sprintf("user_%s", username)` */
  function UserId(username: string): string {
    "user_" + username
  }

  /**
   * `/login`.  `req` is None when the body did not decode; `roll` is the
   * `rand.Intn(100)` delay; `unixSeconds` is the clock at the time the token
   * is made; `work` is the time spent outside the delay.
   */
  function LoginPlan(m: string, req: Option<AuthRequest>, roll: nat, draw: Draw, unixSeconds: int, work: nat): Exchange
    requires roll < LoginDelaySpan
  {
    match req
    case None =>
      Exchange(400, ErrorText("Invalid request"), None, [IncRequests((m, "/login", "400"))])
    case Some(r) =>
      if LoginSucceeds(r, draw) then
        Exchange(200, LoginOk(Token(r.username, unixSeconds), UserId(r.username), true), Some(roll),
                 [IncRequests((m, "/login", "200")), ObserveDuration((m, "/login"), roll + work)])
      else
        Exchange(401, ErrorText("Authentication failed"), Some(roll),
                 [IncRequests((m, "/login", "401")), ObserveDuration((m, "/login"), roll + work)])
  }

  method LoginHandler(reg: Registry, m: string, req: Option<AuthRequest>, roll: nat, draw: Draw, unixSeconds: int, work: nat)
    returns (status: int, body: Body, slept: Option<nat>)
    requires roll < LoginDelaySpan
    modifies reg
    ensures var x := LoginPlan(m, req, roll, draw, unixSeconds, work);
      status == x.status && body == x.body && slept == x.slept && reg.View() == ApplyAll(old(reg.View()), x.updates)
  {
    if req.None? {
      reg.IncRequests((m, "/login", "400"));
      return 400, ErrorText("Invalid request"), None;
    }
    var r := req.value;
    slept := Some(roll);
    if LoginSucceeds(r, draw) {
      reg.IncRequests((m, "/login", "200"));
      status, body := 200, LoginOk(Token(r.username, unixSeconds), UserId(r.username), true);
    } else {
      reg.IncRequests((m, "/login", "401"));
      status, body := 401, ErrorText("Authentication failed");
    }
    reg.ObserveDuration((m, "/login"), roll + work);
    ApplyAllSteps(old(reg.View()), LoginPlan(m, req, roll, draw, unixSeconds, work).updates);
  }

  /**
   * Every outcome of `/login`: an undecodable body is a 400 with one counter
   * increment, no delay and no duration; otherwise the handler sleeps
   * `roll` < 100 ms, answers 200 exactly when the credentials are non-empty
   * and the draw exceeds 0.1 (401 otherwise), and both answers count once
   * and observe one duration that includes the delay.
   */
  lemma LoginOutcome(m: string, req: Option<AuthRequest>, roll: nat, draw: Draw, unixSeconds: int, work: nat)
    requires roll < LoginDelaySpan
    ensures var x := LoginPlan(m, req, roll, draw, unixSeconds, work);
      && CountedOnce(x, m, "/login")
      && Untouched(x.updates, Health) && NoPaymentTallies(x)
      && (req.None? ==> x.status == 400 && x.slept == None && Untimed(x))
      && (req.Some? ==>
            && (x.status == 200 <==> LoginSucceeds(req.value, draw))
            && (x.status == 401 <==> !LoginSucceeds(req.value, draw))
            && x.slept == Some(roll) && x.slept.value < 100
            && TimedOnce(x, m, "/login", roll + work) && roll + work >= x.slept.value)
      && (x.status == 200 ==>
            x.body == LoginOk(Token(req.value.username, unixSeconds), UserId(req.value.username), true))
  {
    StatusLabels();
    var us := LoginPlan(m, req, roll, draw, unixSeconds, work).updates;
    OneEachSole(us);
    assert Sole(us, us[0]);
    if |us| > 1 {
      assert Sole(us, us[1]);
    }
  }

  /** An empty username or password is refused whatever the draws. */
  lemma EmptyCredentialsRefused(m: string, req: AuthRequest, roll: nat, draw: Draw, unixSeconds: int, work: nat)
    requires roll < LoginDelaySpan
    requires req.username == "" || req.password == ""
    ensures LoginPlan(m, Some(req), roll, draw, unixSeconds, work).status == 401
  {
  }

  /**
   * The token is "token_", the username, "_", and then the Unix time in
   * decimal, which parses back to that time.
   */
  lemma TokenCarriesTime(username: string, unixSeconds: int)
    requires Strconv.InInt64(unixSeconds)
    ensures var t := Token(username, unixSeconds);
      && |t| > |username| + 7
      && t[..|username| + 7] == "token_" + username + "_"
      && Strconv.Atoi(t[|username| + 7..]) == Ok(unixSeconds)
  {
    var t := Token(username, unixSeconds);
    assert t[|username| + 7..] == Strconv.Itoa(unixSeconds);
    Strconv.AtoiOfItoa(unixSeconds);
  }

  /**
   * `/validate`.  A missing `Authorization` header is refused before any
   * draw; otherwise a draw below 0.05 refuses it; otherwise it is accepted.
   * Only the accepted path observes a duration.  There is no delay.
   */
  function ValidatePlan(m: string, authorization: string, draw: Draw, work: nat): Exchange {
    if authorization == "" then
      Exchange(401, ErrorText("Missing token"), None, [IncRequests((m, "/validate", "401"))])
    else if draw < ValidateFailBelow then
      Exchange(401, ErrorText("Invalid token"), None, [IncRequests((m, "/validate", "401"))])
    else
      Exchange(200, Validated(true, "user_validated"), None,
               [IncRequests((m, "/validate", "200")), ObserveDuration((m, "/validate"), work)])
  }

  method ValidateHandler(reg: Registry, m: string, authorization: string, draw: Draw, work: nat)
    returns (status: int, body: Body)
    modifies reg
    ensures var x := ValidatePlan(m, authorization, draw, work);
      status == x.status && body == x.body && reg.View() == ApplyAll(old(reg.View()), x.updates)
  {
    if authorization == "" {
      reg.IncRequests((m, "/validate", "401"));
      return 401, ErrorText("Missing token");
    }
    if draw < ValidateFailBelow {
      reg.IncRequests((m, "/validate", "401"));
      return 401, ErrorText("Invalid token");
    }
    reg.IncRequests((m, "/validate", "200"));
    reg.ObserveDuration((m, "/validate"), work);
    ApplyAllSteps(old(reg.View()), ValidatePlan(m, authorization, draw, work).updates);
    return 200, Validated(true, "user_validated");
  }

  /**
   * Every outcome of `/validate`: status 200 exactly when a header is present
   * and the draw is at least 0.05, 401 otherwise; one counter increment; a
   * duration only on the 200 path.
   */
  lemma ValidateOutcome(m: string, authorization: string, draw: Draw, work: nat)
    ensures var x := ValidatePlan(m, authorization, draw, work);
      && (x.status == 200 <==> authorization != "" && draw >= ValidateFailBelow)
      && (x.status == 401 <==> authorization == "" || draw < ValidateFailBelow)
      && CountedOnce(x, m, "/validate")
      && (if x.status == 200 then TimedOnce(x, m, "/validate", work) else Untimed(x))
      && Untouched(x.updates, Health) && NoPaymentTallies(x)
      && x.slept == None
      && (authorization == "" ==> x.body == ErrorText("Missing token"))
      && (x.status == 200 ==> x.body == Validated(true, "user_validated"))
  {
    StatusLabels();
    var us := ValidatePlan(m, authorization, draw, work).updates;
    OneEachSole(us);
    assert Sole(us, us[0]);
    if |us| > 1 {
      assert Sole(us, us[1]);
    }
  }

  /** The header's content is never inspected: any two non-empty headers are handled alike. */
  lemma ValidateIgnoresTokenContent(m: string, a: string, b: string, draw: Draw, work: nat)
    requires a != "" && b != ""
    ensures ValidatePlan(m, a, draw, work) == ValidatePlan(m, b, draw, work)
  {
  }
}
