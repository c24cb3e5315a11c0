/** When one stated quantity supports another: over the reals, an ordered claim is
    entailed exactly when every value the evidence allows is allowed by the claim. */
module Quantities {
  import opened Options
  import opened Bags
  import opened GreedyMatching

  datatype Comparator = Eq | Gt | Gte | Lt | Lte | Approx
  datatype Quantity = Quantity(dimension: string, value: real, comparator: Comparator)

  // ---------------------------------------------------------------------------
  // Units

  // The dimension of a lower-case unit and its size in the base unit; an unknown
  // unit is a dimension of its own.
  function UnitOf(unit: string): (string, real) {
    match unit
    case "w" => ("power_w", 1.0)
    case "瓦" => ("power_w", 1.0)
    case "kw" => ("power_w", 1000.0)
    case "千瓦" => ("power_w", 1000.0)
    case "mw" => ("power_w", 1000000.0)
    case "兆瓦" => ("power_w", 1000000.0)
    case "gw" => ("power_w", 1000000000.0)
    case "吉瓦" => ("power_w", 1000000000.0)
    case "wh" => ("energy_wh", 1.0)
    case "kwh" => ("energy_wh", 1000.0)
    case "千瓦时" => ("energy_wh", 1000.0)
    case "mwh" => ("energy_wh", 1000000.0)
    case "兆瓦时" => ("energy_wh", 1000000.0)
    case "gwh" => ("energy_wh", 1000000000.0)
    case "年" => ("duration_month", 12.0)
    case "个月" => ("duration_month", 1.0)
    case "月" => ("duration_month", 1.0)
    case "天" => ("duration_second", 86400.0)
    case "日" => ("duration_second", 86400.0)
    case "小时" => ("duration_second", 3600.0)
    case "分钟" => ("duration_second", 60.0)
    case "秒" => ("duration_second", 1.0)
    case "%" => ("ratio", 0.01)
    case "百分比" => ("ratio", 0.01)
    case "比例" => ("ratio", 1.0)
    case "元" => ("currency_cny", 1.0)
    case "倍" => ("multiple", 1.0)
    case "度" => ("temperature_degree", 1.0)
    case "" => ("scalar", 1.0)
    case other => (other, 1.0)
  }

  function CanonicalQuantity(value: real, unit: string, comparator: Comparator): Quantity {
    InUnit(value, UnitOf(unit), comparator)
  }

  function InUnit(value: real, unit: (string, real), comparator: Comparator): Quantity {
    Quantity(unit.0, value * unit.1, comparator)
  }

  // An amount in one unit is as many times more in the smaller units of its kind.
  ghost predicate Makes(unit: string, times: real, smaller: string) {
    TimesMore(UnitOf(unit), times, UnitOf(smaller))
  }

  ghost predicate TimesMore(unit: (string, real), times: real, smaller: (string, real)) {
    forall x: real, c :: InUnit(x, unit, c) == InUnit(times * x, smaller, c)
  }

  lemma UnitsConvert(unit: (string, real), times: real, smaller: (string, real))
    requires unit.0 == smaller.0 && unit.1 == times * smaller.1
    ensures TimesMore(unit, times, smaller)
  {
    forall x: real, c ensures InUnit(x, unit, c) == InUnit(times * x, smaller, c) {
      Regroup(x, times, smaller.1, unit.1);
    }
  }

  lemma Regroup(x: real, times: real, size: real, larger: real)
    requires larger == times * size
    ensures x * larger == (times * x) * size
  {
    assert x * (times * size) == (times * x) * size;
  }

  lemma UnitsRelate()
    ensures Makes("gw", 1000.0, "mw") && Makes("mw", 1000.0, "kw") && Makes("kw", 1000.0, "w")
    ensures Makes("吉瓦", 1.0, "gw") && Makes("兆瓦", 1.0, "mw") && Makes("千瓦", 1.0, "kw") && Makes("瓦", 1.0, "w")
    ensures Makes("gwh", 1000.0, "mwh") && Makes("mwh", 1000.0, "kwh") && Makes("kwh", 1000.0, "wh")
    ensures Makes("兆瓦时", 1.0, "mwh") && Makes("千瓦时", 1.0, "kwh")
    ensures Makes("年", 12.0, "个月") && Makes("月", 1.0, "个月")
    ensures Makes("天", 24.0, "小时") && Makes("日", 1.0, "天") && Makes("小时", 60.0, "分钟") && Makes("分钟", 60.0, "秒")
    ensures Makes("%", 0.01, "比例") && Makes("百分比", 1.0, "%")
  {
    PowerRelates();
    EnergyRelates();
    TimeRelates();
    UnitsConvert(UnitOf("%"), 0.01, UnitOf("比例"));
    UnitsConvert(UnitOf("百分比"), 1.0, UnitOf("%"));
  }

  lemma PowerRelates()
    ensures Makes("gw", 1000.0, "mw") && Makes("mw", 1000.0, "kw") && Makes("kw", 1000.0, "w")
    ensures Makes("吉瓦", 1.0, "gw") && Makes("兆瓦", 1.0, "mw") && Makes("千瓦", 1.0, "kw") && Makes("瓦", 1.0, "w")
  {
    UnitsConvert(UnitOf("gw"), 1000.0, UnitOf("mw"));
    UnitsConvert(UnitOf("mw"), 1000.0, UnitOf("kw"));
    UnitsConvert(UnitOf("kw"), 1000.0, UnitOf("w"));
    UnitsConvert(UnitOf("吉瓦"), 1.0, UnitOf("gw"));
    UnitsConvert(UnitOf("兆瓦"), 1.0, UnitOf("mw"));
    UnitsConvert(UnitOf("千瓦"), 1.0, UnitOf("kw"));
    UnitsConvert(UnitOf("瓦"), 1.0, UnitOf("w"));
  }

  lemma EnergyRelates()
    ensures Makes("gwh", 1000.0, "mwh") && Makes("mwh", 1000.0, "kwh") && Makes("kwh", 1000.0, "wh")
    ensures Makes("兆瓦时", 1.0, "mwh") && Makes("千瓦时", 1.0, "kwh")
  {
    UnitsConvert(UnitOf("gwh"), 1000.0, UnitOf("mwh"));
    UnitsConvert(UnitOf("mwh"), 1000.0, UnitOf("kwh"));
    UnitsConvert(UnitOf("kwh"), 1000.0, UnitOf("wh"));
    UnitsConvert(UnitOf("兆瓦时"), 1.0, UnitOf("mwh"));
    UnitsConvert(UnitOf("千瓦时"), 1.0, UnitOf("kwh"));
  }

  lemma TimeRelates()
    ensures Makes("年", 12.0, "个月") && Makes("月", 1.0, "个月")
    ensures Makes("天", 24.0, "小时") && Makes("日", 1.0, "天") && Makes("小时", 60.0, "分钟") && Makes("分钟", 60.0, "秒")
  {
    UnitsConvert(UnitOf("年"), 12.0, UnitOf("个月"));
    UnitsConvert(UnitOf("月"), 1.0, UnitOf("个月"));
    UnitsConvert(UnitOf("天"), 24.0, UnitOf("小时"));
    UnitsConvert(UnitOf("日"), 1.0, UnitOf("天"));
    UnitsConvert(UnitOf("小时"), 60.0, UnitOf("分钟"));
    UnitsConvert(UnitOf("分钟"), 60.0, UnitOf("秒"));
  }

  // ---------------------------------------------------------------------------
  // Entailment

  function Abs(x: real): real { if x < 0.0 then -x else x }

  function Larger(a: real, b: real): real { if a >= b then a else b }

  function Slack(scale: real): real { scale * 0.000000001 }

  predicate Close(a: real, b: real) {
    Abs(a - b) <= Slack(Larger(1.0, Larger(Abs(a), Abs(b))))
  }

  predicate SameDimensionAndValue(a: Quantity, b: Quantity) {
    a.dimension == b.dimension && Close(a.value, b.value)
  }

  predicate Entails(evidence: Quantity, claim: Quantity) {
    evidence.dimension == claim.dimension
    && match claim.comparator
       case Eq => evidence.comparator.Eq? && SameDimensionAndValue(evidence, claim)
       case Approx => (evidence.comparator.Eq? || evidence.comparator.Approx?) && SameDimensionAndValue(evidence, claim)
       case Gte =>
         || (evidence.comparator.Eq? && evidence.value >= claim.value)
         || ((evidence.comparator.Gte? || evidence.comparator.Gt?) && evidence.value >= claim.value)
       case Gt =>
         || (evidence.comparator.Eq? && evidence.value > claim.value)
         || (evidence.comparator.Gt? && evidence.value >= claim.value)
         || (evidence.comparator.Gte? && evidence.value > claim.value)
       case Lte =>
         || (evidence.comparator.Eq? && evidence.value <= claim.value)
         || ((evidence.comparator.Lte? || evidence.comparator.Lt?) && evidence.value <= claim.value)
       case Lt =>
         || (evidence.comparator.Eq? && evidence.value < claim.value)
         || (evidence.comparator.Lt? && evidence.value <= claim.value)
         || (evidence.comparator.Lte? && evidence.value < claim.value)
  }

  // The values a statement that is not approximate leaves open.
  predicate Allows(q: Quantity, x: real)
    requires !q.comparator.Approx?
  {
    match q.comparator
    case Eq => x == q.value
    case Gt => x > q.value
    case Gte => x >= q.value
    case Lt => x < q.value
    case Lte => x <= q.value
  }

  predicate Ordered(c: Comparator) {
    c.Gt? || c.Gte? || c.Lt? || c.Lte?
  }

  // A value that evidence allows and the claim does not, if entailment fails.
  function Witness(evidence: Quantity, claim: Quantity): real {
    var low := if evidence.value <= claim.value then evidence.value else claim.value;
    var high := if evidence.value <= claim.value then claim.value else evidence.value;
    match evidence.comparator
    case Eq => evidence.value
    case Gte => if claim.comparator.Gt? || claim.comparator.Gte? then evidence.value else high + 1.0
    case Gt =>
      if claim.comparator.Gt? || claim.comparator.Gte? then (evidence.value + claim.value) / 2.0 else high + 1.0
    case Lte => if claim.comparator.Lt? || claim.comparator.Lte? then evidence.value else low - 1.0
    case Lt =>
      if claim.comparator.Lt? || claim.comparator.Lte? then (evidence.value + claim.value) / 2.0 else low - 1.0
    case Approx => evidence.value
  }

  // Entailment of an ordered claim is inclusion of intervals.
  lemma EntailmentIsInclusion(evidence: Quantity, claim: Quantity)
    requires Ordered(claim.comparator) && !evidence.comparator.Approx?
    ensures Entails(evidence, claim) <==>
      evidence.dimension == claim.dimension && forall x :: Allows(evidence, x) ==> Allows(claim, x)
  {
    if evidence.dimension == claim.dimension && !Entails(evidence, claim) {
      var x := Witness(evidence, claim);
      assert Allows(evidence, x) && !Allows(claim, x);
    }
  }

  function Scaled(q: Quantity, factor: real): Quantity {
    q.(value := q.value * factor)
  }

  lemma ScalingKeepsOrder(a: real, b: real, factor: real)
    requires factor > 0.0
    ensures a * factor >= b * factor <==> a >= b
  {
    if a > b { assert (a - b) * factor > 0.0; }
    if a < b { assert (b - a) * factor > 0.0; }
  }

  // The unit both are stated in does not matter, and every unit has a positive size.
  lemma ScalingKeepsEntailment(evidence: Quantity, claim: Quantity, factor: real)
    requires Ordered(claim.comparator) && factor > 0.0
    ensures Entails(Scaled(evidence, factor), Scaled(claim, factor)) == Entails(evidence, claim)
  {
    ScalingKeepsOrder(evidence.value, claim.value, factor);
    ScalingKeepsOrder(claim.value, evidence.value, factor);
  }

  lemma UnitsArePositive(unit: string)
    ensures UnitOf(unit).1 > 0.0
  {}

  lemma UnitsDoNotMatter(v: real, c: real, unit: string, evidence: Comparator, claim: Comparator)
    requires Ordered(claim)
    ensures Entails(CanonicalQuantity(v, unit, evidence), CanonicalQuantity(c, unit, claim))
      <==> Entails(Quantity("", v, evidence), Quantity("", c, claim))
  {
    UnitsArePositive(unit);
    ScalingKeepsEntailment(Quantity(UnitOf(unit).0, v, evidence), Quantity(UnitOf(unit).0, c, claim), UnitOf(unit).1);
  }

  // Approximate statements entail only approximate ones, and an approximate claim is
  // entailed exactly like the exact one by evidence taken as exact.
  lemma ApproximateIff(evidence: Quantity, claim: Quantity)
    ensures evidence.comparator.Approx? && !claim.comparator.Approx? ==> !Entails(evidence, claim)
    ensures claim.comparator.Approx? ==>
      (Entails(evidence, claim) <==>
        evidence.comparator in {Eq, Approx} && Entails(evidence.(comparator := Eq), claim.(comparator := Eq)))
  {}

  // Between units of one kind entailment of ordered claims compares the amounts in the
  // smaller unit; quantities of different kinds never entail each other.
  lemma UnitsCompare(v: real, unit: string, times: real, evidence: Comparator, c: real, smaller: string, claim: Comparator)
    requires Ordered(claim) && Makes(unit, times, smaller)
    ensures Entails(CanonicalQuantity(v, unit, evidence), CanonicalQuantity(c, smaller, claim))
      <==> Entails(Quantity("", times * v, evidence), Quantity("", c, claim))
  {
    assert InUnit(v, UnitOf(unit), evidence) == InUnit(times * v, UnitOf(smaller), evidence);
    UnitsDoNotMatter(times * v, c, smaller, evidence, claim);
  }

  lemma KindsAreApart(v: real, unit: string, evidence: Comparator, c: real, other: string, claim: Comparator)
    requires Kind(unit).Some? && Kind(other).Some? && Kind(unit) != Kind(other)
    ensures !Entails(CanonicalQuantity(v, unit, evidence), CanonicalQuantity(c, other, claim))
  {}

  datatype Dimension = Power | Energy | Months | Seconds | Ratio | Money | Multiple | Degrees | Scalar

  // What a known unit measures.
  function Kind(unit: string): Option<Dimension> {
    if unit in {"w", "瓦", "kw", "千瓦", "mw", "兆瓦", "gw", "吉瓦"} then Some(Power)
    else if unit in {"wh", "kwh", "千瓦时", "mwh", "兆瓦时", "gwh"} then Some(Energy)
    else if unit in {"年", "个月", "月"} then Some(Months)
    else if unit in {"天", "日", "小时", "分钟", "秒"} then Some(Seconds)
    else if unit in {"%", "百分比", "比例"} then Some(Ratio)
    else if unit == "元" then Some(Money)
    else if unit == "倍" then Some(Multiple)
    else if unit == "度" then Some(Degrees)
    else if unit == "" then Some(Scalar)
    else None
  }

  // ---------------------------------------------------------------------------
  // Equality, which is judged within a tolerance

  // An equal value is entailed by the values it does not differ from, and by others
  // within the tolerance: these are the only pairs that entailment gets wrong.
  lemma EqualityIsInclusionIff(evidence: Quantity, claim: Quantity)
    requires claim.comparator.Eq? && !evidence.comparator.Approx?
    ensures (Entails(evidence, claim) <==>
        evidence.dimension == claim.dimension && forall x :: Allows(evidence, x) ==> Allows(claim, x))
      <==> !(evidence.comparator.Eq? && evidence.value != claim.value && SameDimensionAndValue(evidence, claim))
  {
    if evidence.dimension == claim.dimension {
      var v := evidence.value;
      if !evidence.comparator.Eq? {
        var x, y := if claim.value == v + 1.0 then v + 2.0 else v + 1.0, if claim.value == v - 1.0 then v - 2.0 else v - 1.0;
        assert Allows(evidence, if evidence.comparator.Gt? || evidence.comparator.Gte? then x else y);
        assert !Allows(claim, x) && !Allows(claim, y);
      } else {
        assert Allows(evidence, v);
      }
    }
  }

  // The value furthest from b, on the side away from a, that b still entails.
  function Beyond(a: real, b: real): real
    decreases a > b
  {
    if a > b then -Beyond(-a, -b)
    else if b < 0.0 then b + Slack(Larger(1.0, -b))
    else if b + Slack(1.0) <= 1.0 then b + Slack(1.0)
    else b / 0.999999999
  }

  lemma BeyondIsEntailed(a: real, b: real)
    ensures Close(b, Beyond(a, b)) && (a != b ==> !Close(a, Beyond(a, b)))
    decreases a > b
  {
    if a > b { BeyondIsEntailed(-a, -b); }
  }

  // Equality passes on to everything it entails only from an equal value.
  lemma EqualityChainsIff(a: Quantity, b: Quantity)
    requires a.comparator.Eq? && b.comparator.Eq? && Entails(a, b)
    ensures (forall c: Quantity | c.comparator.Eq? && Entails(b, c) :: Entails(a, c)) <==> a.value == b.value
  {
    var c := Quantity(b.dimension, Beyond(a.value, b.value), Eq);
    BeyondIsEntailed(a.value, b.value);
    assert Entails(b, c);
  }

  // Judged by the tolerance rather than by the order.
  predicate Tolerant(evidence: Quantity, claim: Quantity) {
    && evidence.dimension == claim.dimension
    && match claim.comparator
       case Eq => evidence.comparator.Eq?
       case Approx => evidence.comparator.Eq? || evidence.comparator.Approx?
       case _ => false
  }

  predicate RelativelyClose(a: real, b: real) {
    Abs(a - b) <= Slack(Larger(Abs(a), Abs(b)))
  }

  ghost predicate UnitIndependent(evidence: Quantity, claim: Quantity) {
    forall factor: real | factor > 0.0 :: Entails(Scaled(evidence, factor), Scaled(claim, factor)) == Entails(evidence, claim)
  }

  // The unit matters exactly to two values that the tolerance compares and that
  // differ by more than that fraction of the larger one.
  lemma UnitsMatterIff(evidence: Quantity, claim: Quantity)
    ensures UnitIndependent(evidence, claim) <==>
      Tolerant(evidence, claim) ==> RelativelyClose(evidence.value, claim.value)
  {
    if !Tolerant(evidence, claim) || RelativelyClose(evidence.value, claim.value) {
      forall factor: real | factor > 0.0
        ensures Entails(Scaled(evidence, factor), Scaled(claim, factor)) == Entails(evidence, claim)
      {
        UnitDoesNotMatter(evidence, claim, factor);
      }
    } else {
      var near, far := UnitsCanMatter(evidence, claim);
    }
  }

  lemma UnitDoesNotMatter(evidence: Quantity, claim: Quantity, factor: real)
    requires factor > 0.0 && (Tolerant(evidence, claim) ==> RelativelyClose(evidence.value, claim.value))
    ensures Entails(Scaled(evidence, factor), Scaled(claim, factor)) == Entails(evidence, claim)
  {
    if Ordered(claim.comparator) {
      ScalingKeepsEntailment(evidence, claim, factor);
    } else {
      CloseInEveryUnit(evidence, claim, factor);
    }
  }

  lemma CloseInEveryUnit(evidence: Quantity, claim: Quantity, factor: real)
    requires factor > 0.0 && (Tolerant(evidence, claim) ==> RelativelyClose(evidence.value, claim.value))
    requires !Ordered(claim.comparator)
    ensures Entails(Scaled(evidence, factor), Scaled(claim, factor)) == Entails(evidence, claim)
  {
    var v, w := ScaledValues(evidence.value, claim.value, factor);
    var e := ScaledTo(evidence, factor, v);
    var c := ScaledTo(claim, factor, w);
    SameVerdict(evidence, claim, v, w, e, c);
  }

  // The scaled quantity, its value named.
  lemma ScaledTo(q: Quantity, factor: real, v: real) returns (s: Quantity)
    requires v == q.value * factor
    ensures s == Scaled(q, factor) == q.(value := v)
  {
    s := q.(value := v);
  }

  lemma SameVerdict(evidence: Quantity, claim: Quantity, v: real, w: real, e: Quantity, c: Quantity)
    requires e == evidence.(value := v) && c == claim.(value := w) && !Ordered(claim.comparator)
    requires Tolerant(evidence, claim) ==> Close(v, w) && Close(evidence.value, claim.value)
    ensures Entails(e, c) == Entails(evidence, claim)
  {}

  lemma ScaledValues(a: real, b: real, factor: real) returns (v: real, w: real)
    requires factor > 0.0
    ensures v == a * factor && w == b * factor
    ensures RelativelyClose(a, b) ==> Close(a, b) && Close(v, w)
  {
    v, w := a * factor, b * factor;
    ScaledDifference(a, b, factor);
    RelativelyCloseIsClose(a, b);
    RelativelyCloseIsClose(v, w);
  }

  lemma RelativelyCloseIsClose(a: real, b: real)
    ensures RelativelyClose(a, b) ==> Close(a, b)
  {}

  lemma ScaledDifference(a: real, b: real, factor: real)
    requires factor > 0.0
    ensures Abs(a * factor - b * factor) == Abs(a - b) * factor
    ensures RelativelyClose(a * factor, b * factor) <==> RelativelyClose(a, b)
  {
    ScaledSize(a - b, factor);
    assert a * factor - b * factor == (a - b) * factor;
    ScaledScale(a, b, factor);
    ScaledSlack(Abs(a - b), Larger(Abs(a), Abs(b)), factor);
  }

  lemma ScaledScale(a: real, b: real, factor: real)
    requires factor > 0.0
    ensures Larger(Abs(a * factor), Abs(b * factor)) == Larger(Abs(a), Abs(b)) * factor
  {
    ScaledSize(a, factor);
    ScaledSize(b, factor);
    ScaledLarger(Abs(a), Abs(b), factor);
  }

  lemma ScaledLarger(x: real, y: real, factor: real)
    requires factor > 0.0
    ensures Larger(x * factor, y * factor) == Larger(x, y) * factor
  {
    ScalingKeepsOrder(x, y, factor);
  }

  lemma ScaledSlack(d: real, m: real, factor: real)
    requires factor > 0.0
    ensures d * factor <= Slack(m * factor) <==> d <= Slack(m)
  {
    ScalingKeepsOrder(Slack(m), d, factor);
  }

  lemma ScaledSize(a: real, factor: real)
    requires factor > 0.0
    ensures Abs(a * factor) == Abs(a) * factor
  {
    ScalingKeepsOrder(a, 0.0, factor);
  }

  // In a unit that makes the difference the tolerance they are equal; in one half
  // that size they are not.
  lemma UnitsCanMatter(evidence: Quantity, claim: Quantity) returns (near: real, far: real)
    requires Tolerant(evidence, claim) && !RelativelyClose(evidence.value, claim.value)
    ensures near > 0.0 && Entails(Scaled(evidence, near), Scaled(claim, near))
    ensures far > 0.0 && !Entails(Scaled(evidence, far), Scaled(claim, far))
  {
    near, far := UnitsThatTell(evidence.value, claim.value);
    CloseInUnit(evidence, claim, near);
    CloseInUnit(evidence, claim, far);
  }

  lemma CloseInUnit(evidence: Quantity, claim: Quantity, factor: real)
    requires Tolerant(evidence, claim)
    ensures Entails(Scaled(evidence, factor), Scaled(claim, factor)) ==
      Close(evidence.value * factor, claim.value * factor)
  {
    TolerantVerdict(evidence.value * factor, claim.value * factor, Scaled(evidence, factor), Scaled(claim, factor));
  }

  lemma TolerantVerdict(v: real, w: real, evidence: Quantity, claim: Quantity)
    requires Tolerant(evidence, claim) && v == evidence.value && w == claim.value
    ensures Entails(evidence, claim) == Close(v, w)
  {}

  lemma UnitsThatTell(a: real, b: real) returns (near: real, far: real)
    requires !RelativelyClose(a, b)
    ensures near > 0.0 && Close(a * near, b * near)
    ensures far > 0.0 && !Close(a * far, b * far)
  {
    near := UnitOfSize(Abs(a - b));
    far := 2.0 * near;
    ScaledDifference(a, b, near);
    ScaledDifference(a, b, far);
    TooFar(a * far, b * far);
  }

  lemma TooFar(a: real, b: real)
    requires !RelativelyClose(a, b) && Abs(a - b) > Slack(1.0)
    ensures !Close(a, b)
  {}

  lemma UnitOfSize(d: real) returns (factor: real)
    requires d > 0.0
    ensures factor > 0.0 && d * factor == Slack(1.0) && d * (2.0 * factor) == 2.0 * Slack(1.0)
  {
    factor := Slack(1.0) / d;
  }

  const NONE := Quantity("w", 0.0, Eq)
  const LITTLE := Quantity("w", 0.000000001, Eq)
  const TWICE := Quantity("w", 0.000000002, Eq)

  // Each of the three fails: an entailed value that is not allowed, a chain that
  // breaks, and a pair that a smaller unit tells apart.
  lemma EqualityIsTolerant()
    ensures Entails(NONE, LITTLE) && !Allows(LITTLE, NONE.value)
    ensures Entails(LITTLE, TWICE) && !Entails(NONE, TWICE)
    ensures !Entails(Scaled(NONE, 1000.0), Scaled(LITTLE, 1000.0))
  {
    LiteralsAreClose();
    TolerantVerdict(0.0, 0.000000001, NONE, LITTLE);
    TolerantVerdict(0.000000001, 0.000000002, LITTLE, TWICE);
    TolerantVerdict(0.0, 0.000000002, NONE, TWICE);
    LittleIsSeen();
  }

  lemma LittleIsSeen()
    ensures !Entails(Scaled(NONE, 1000.0), Scaled(LITTLE, 1000.0))
  {
    LiteralsAreClose();
    assert Scaled(NONE, 1000.0) == NONE && Scaled(LITTLE, 1000.0) == Quantity("w", 0.000001, Eq);
    TolerantVerdict(0.0, 0.000001, NONE, Quantity("w", 0.000001, Eq));
  }

  lemma LiteralsAreClose()
    ensures Close(0.0, 0.000000001) && Close(0.000000001, 0.000000002)
    ensures !Close(0.0, 0.000000002) && !Close(0.0, 0.000001)
  {}

  // ---------------------------------------------------------------------------
  // Lists

  // Each claim in turn takes the first unused evidence that entails it.
  predicate ListEntails(evidence: seq<Quantity>, claims: seq<Quantity>) {
    |evidence| == |claims| && Greedy(Entails, evidence, claims)
  }

  method PropositionQuantitiesEntail(evidence: seq<Quantity>, claims: seq<Quantity>) returns (entailed: bool)
    ensures entailed <==> ListEntails(evidence, claims)
  {
    if |evidence| != |claims| { return false; }
    var unused := evidence;
    for k := 0 to |claims|
      invariant Greedy(Entails, evidence, claims) <==> Greedy(Entails, unused, claims[k..])
    {
      assert claims[k..][0] == claims[k] && claims[k..][1..] == claims[k + 1..];
      var index := FirstServing(Entails, unused, claims[k], 0);
      if index.None? { return false; }
      unused := Without(unused, index.value);
    }
    return unused == [];
  }

  // Greedy success is a one-to-one matching.
  lemma ListMatches(evidence: seq<Quantity>, claims: seq<Quantity>) returns (order: seq<Quantity>)
    requires ListEntails(evidence, claims)
    ensures Matching(Entails, evidence, claims, order)
  {
    order := GreedyMatches(Entails, evidence, claims);
  }

  ghost predicate EntailsInEveryOrder(evidence: seq<Quantity>, claims: seq<Quantity>) {
    forall e, c {:trigger ListEntails(e, c)} | multiset(e) == multiset(evidence) && multiset(c) == multiset(claims) ::
      ListEntails(e, c)
  }

  // The check says yes in every order exactly when there is a matching and evidence
  // that entails one of the claims in common entails the same claims.
  lemma ListEntailsIff(evidence: seq<Quantity>, claims: seq<Quantity>)
    ensures EntailsInEveryOrder(evidence, claims) <==>
      Matched(Entails, evidence, claims) && Rectangular(Entails, multiset(evidence), multiset(claims))
  {
    SucceedsIff(Entails, evidence, claims);
    if EntailsInEveryOrder(evidence, claims) {
      forall e, c | multiset(e) == multiset(evidence) && multiset(c) == multiset(claims) ensures Greedy(Entails, e, c) {
        assert ListEntails(e, c);
      }
    }
    if SucceedsInEveryOrder(Entails, evidence, claims) {
      forall e, c | multiset(e) == multiset(evidence) && multiset(c) == multiset(claims) ensures ListEntails(e, c) {
        assert Greedy(Entails, e, c);
        var order := GreedyMatches(Entails, e, c);
        SameLength(order, e);
      }
    }
  }

  // Shared evidence can be spent on the wrong claim: one value entails a claim that
  // the other also entails, and another claim that the other does not.
  lemma GreedyCanMiss()
    ensures var three, five := Quantity("w", 3.0, Gte), Quantity("w", 5.0, Gte);
      && Matching(Entails, [five, three], [three, five], [three, five]) && !ListEntails([five, three], [three, five])
      && Entails(five, three) && Entails(five, five) && Entails(three, three) && !Entails(three, five)
  {
    var three, five := Quantity("w", 3.0, Gte), Quantity("w", 5.0, Gte);
    var evidence := [five, three];
    assert FirstServing(Entails, evidence, three, 0) == Some(0);
    assert Without(evidence, 0) == [three];
    assert FirstServing(Entails, [three], five, 0).None?;
    assert !Greedy(Entails, [three], [five]);
    assert [three, five][1..] == [five];
  }
}
