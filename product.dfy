/** The product service: `/health`, `/products` and `/products/{id}`. */
module ProductService {
  import opened Wrappers
  import opened Metrics
  import opened Lifecycle
  import opened Catalog
  import Strconv

  const Service: string := "product"

  /** `/health` fails when `rand.Float32() < 0.03`. */
  const HealthFailBelow: real := 0.03

  /** The listing delay is `rand.Intn(200)` milliseconds. */
  const ListDelaySpan: nat := 200

  /** The lookup delay is `rand.Intn(150)` milliseconds. */
  const LookupDelaySpan: nat := 150

  /** Process start-up: the registry is empty except that the health gauge reads 1. */
  method Start() returns (reg: Registry)
    ensures fresh(reg)
    ensures reg.View() == Empty.(health := map[Service := 1])
  {
    reg := new Registry();
    reg.SetHealth(Service, 1);
  }

  method HealthHandler(reg: Registry, m: string, draw: Draw, work: nat) returns (status: int, body: Body)
    modifies reg
    ensures var x := HealthPlan(Service, HealthFailBelow, m, draw, work);
      status == x.status && body == x.body && reg.View() == ApplyAll(old(reg.View()), x.updates)
  {
    status, body := CheckHealth(reg, Service, HealthFailBelow, m, draw, work);
  }

  /** `/products`: after a `roll` ms delay, the whole catalogue. */
  function ListPlan(m: string, roll: nat, work: nat): Exchange
    requires roll < ListDelaySpan
  {
    Exchange(200, ProductList(Catalogue), Some(roll),
             [IncRequests((m, "/products", "200")), ObserveDuration((m, "/products"), roll + work)])
  }

  method GetProductsHandler(reg: Registry, m: string, roll: nat, work: nat)
    returns (status: int, body: Body, slept: Option<nat>)
    requires roll < ListDelaySpan
    modifies reg
    ensures var x := ListPlan(m, roll, work);
      status == x.status && body == x.body && slept == x.slept && reg.View() == ApplyAll(old(reg.View()), x.updates)
  {
    slept := Some(roll);
    reg.IncRequests((m, "/products", "200"));
    reg.ObserveDuration((m, "/products"), roll + work);
    ApplyAllSteps(old(reg.View()), ListPlan(m, roll, work).updates);
    return 200, ProductList(Catalogue), slept;
  }

  /**
   * `/products` always answers 200 with the five products in declaration
   * order, after a delay below 200 ms, counting once and observing one
   * duration.
   */
  lemma ListOutcome(m: string, roll: nat, work: nat)
    requires roll < ListDelaySpan
    ensures var x := ListPlan(m, roll, work);
      && x.status == 200 && x.body == ProductList(Catalogue) && |x.body.products| == 5
      && x.slept == Some(roll) && roll < 200
      && CountedOnce(x, m, "/products")
      && TimedOnce(x, m, "/products", roll + work)
      && Untouched(x.updates, Health) && NoPaymentTallies(x)
  {
    StatusLabels();
    var us := ListPlan(m, roll, work).updates;
    OneEachSole(us);
    assert Sole(us, us[0]) && Sole(us, us[1]);
  }

  /**
   * `/products/{id}`.  `idText` is the path variable; an id that does not
   * parse is a 400 with no delay; a parsed id is looked up after a `roll` ms
   * delay and is a 200 with the first product carrying it, or a 404.  Labels
   * use the route template, never the raw id.
   */
  function LookupPlan(m: string, idText: string, roll: nat, work: nat): Exchange
    requires roll < LookupDelaySpan
  {
    match Strconv.Atoi(idText)
    case Err(_) =>
      Exchange(400, ErrorText("Invalid product ID"), None, [IncRequests((m, "/products/{id}", "400"))])
    case Ok(id) =>
      match FirstMatch(Catalogue, id)
      case Some(i) =>
        Exchange(200, ProductItem(Catalogue[i]), Some(roll),
                 [IncRequests((m, "/products/{id}", "200")), ObserveDuration((m, "/products/{id}"), roll + work)])
      case None =>
        Exchange(404, ErrorText("Product not found"), Some(roll),
                 [IncRequests((m, "/products/{id}", "404")), ObserveDuration((m, "/products/{id}"), roll + work)])
  }

  method GetProductHandler(reg: Registry, m: string, idText: string, roll: nat, work: nat)
    returns (status: int, body: Body, slept: Option<nat>)
    requires roll < LookupDelaySpan
    modifies reg
    ensures var x := LookupPlan(m, idText, roll, work);
      status == x.status && body == x.body && slept == x.slept && reg.View() == ApplyAll(old(reg.View()), x.updates)
  {
    var parsed := Strconv.Atoi(idText);
    if parsed.Err? {
      reg.IncRequests((m, "/products/{id}", "400"));
      return 400, ErrorText("Invalid product ID"), None;
    }
    var id := parsed.value;
    slept := Some(roll);
    var i := 0;
    while i < |Catalogue|
      invariant 0 <= i <= |Catalogue|
      invariant forall j :: 0 <= j < i ==> Catalogue[j].id != id
      invariant unchanged(reg)
    {
      var product := Catalogue[i];
      if product.id == id {
        reg.IncRequests((m, "/products/{id}", "200"));
        reg.ObserveDuration((m, "/products/{id}"), roll + work);
        ApplyAllSteps(old(reg.View()), LookupPlan(m, idText, roll, work).updates);
        return 200, ProductItem(product), slept;
      }
      i := i + 1;
    }
    reg.IncRequests((m, "/products/{id}", "404"));
    reg.ObserveDuration((m, "/products/{id}"), roll + work);
    ApplyAllSteps(old(reg.View()), LookupPlan(m, idText, roll, work).updates);
    return 404, ErrorText("Product not found"), slept;
  }

  /**
   * Every outcome of `/products/{id}`: 400 exactly when the id does not
   * parse (counted, no delay, no duration); otherwise a delay below 150 ms,
   * then 200 with the first product carrying the id when there is one and
   * 404 when there is none, each counted once under the route template and
   * timed once.
   */
  lemma LookupOutcome(m: string, idText: string, roll: nat, work: nat)
    requires roll < LookupDelaySpan
    ensures var x := LookupPlan(m, idText, roll, work);
      && CountedOnce(x, m, "/products/{id}")
      && Untouched(x.updates, Health) && NoPaymentTallies(x)
      && (x.status == 400 <==> Strconv.Atoi(idText).Err?)
      && (x.status == 400 ==> x.slept == None && Untimed(x))
      && (x.status != 400 ==> x.slept == Some(roll) && roll < 150 && TimedOnce(x, m, "/products/{id}", roll + work))
      && (x.status == 404 <==>
            Strconv.Atoi(idText).Ok? && forall p :: p in Catalogue ==> p.id != Strconv.Atoi(idText).value)
      && (x.status == 200 <==>
            Strconv.Atoi(idText).Ok? && exists p :: p in Catalogue && p.id == Strconv.Atoi(idText).value)
      && (x.status == 200 ==>
            exists i :: 0 <= i < |Catalogue| && x.body == ProductItem(Catalogue[i])
              && Catalogue[i].id == Strconv.Atoi(idText).value
              && forall j :: 0 <= j < i ==> Catalogue[j].id != Strconv.Atoi(idText).value)
  {
    StatusLabels();
    var x := LookupPlan(m, idText, roll, work);
    var us := x.updates;
    OneEachSole(us);
    assert Sole(us, us[0]);
    if |us| > 1 {
      assert Sole(us, us[1]);
    }
    var r := Strconv.Atoi(idText);
    if r.Ok? {
      var found := FirstMatch(Catalogue, r.value);
      if found.Some? {
        assert Catalogue[found.value] in Catalogue;
      } else {
        forall p | p in Catalogue ensures p.id != r.value {
          var k :| 0 <= k < |Catalogue| && Catalogue[k] == p;
        }
      }
    }
  }

  /** `/products/3` answers 200 with the keyboard, priced 79.99, 75 in stock. */
  lemma KeyboardLookup(m: string, roll: nat, work: nat)
    requires roll < LookupDelaySpan
    ensures LookupPlan(m, "3", roll, work).status == 200
    ensures LookupPlan(m, "3", roll, work).body == ProductItem(Product(3, "Keyboard", 79.99, "Mechanical keyboard", 75))
  {
  }

  /**
   * Any 64-bit id outside 1 to 5, written in decimal (999, 0, -1, ...), is a
   * 404 and still counts and times the request.
   */
  lemma UnknownIdNotFound(m: string, id: int, roll: nat, work: nat)
    requires roll < LookupDelaySpan
    requires Strconv.InInt64(id) && (id < 1 || id > 5)
    ensures LookupPlan(m, Strconv.Itoa(id), roll, work).status == 404
  {
    Strconv.AtoiOfItoa(id);
    LookupByCatalogueId(id);
  }

  /** Ids that are not integers, or do not fit in 64 bits, are a 400. */
  lemma BadIdRejected(m: string, roll: nat, work: nat)
    requires roll < LookupDelaySpan
    ensures LookupPlan(m, "", roll, work).status == 400
    ensures LookupPlan(m, "abc", roll, work).status == 400
    ensures LookupPlan(m, Strconv.Itoa(Strconv.MaxInt64 + 1), roll, work).status == 400
  {
    assert !Strconv.IsDigit('a');
    Strconv.AtoiOfItoa(Strconv.MaxInt64 + 1);
  }
}
