/** The docking-cost model (stage3_action/cost_models.py): a weighted sum of travel, current,
    energy, drag, obstacle-risk and localisation-uncertainty terms for moving to a dump point.
    `math.hypot` needs a square root, so the calculator carries it as a function value and the
    lemmas rely only on the laws stated by `HypotLaws`. */
module CostModels {
  import opened Common
  import opened ActionEntity
  import opened MockEnv

  /** What the model relies on about `math.hypot`: never negative, even, and zero at the origin. */
  ghost predicate HypotLaws(hypot: (real, real) -> real) {
    (forall dx: real, dy: real :: hypot(dx, dy) >= 0.0) &&
    (forall dx: real, dy: real :: hypot(dx, dy) == hypot(-dx, -dy)) &&
    hypot(0.0, 0.0) == 0.0
  }

  /** The six cost terms before weighting; all but `drag` are normalised. */
  datatype CostTerms = CostTerms(travelTimeN: real, currentN: real, energyN: real, drag: real, riskN: real, uncertaintyN: real)

  datatype CostCalculator = CostCalculator(costModelCfg: CostModel, hypot: (real, real) -> real)
  {
    function Weights(): CostWeights { costModelCfg.costWeights }
    function Vehicle(): VehicleModel { costModelCfg.vehicleModel }
    function NormLimits(): NormalizationLimits { costModelCfg.normalizationLimits }

    /** Distance in the horizontal plane; depth plays no part. */
    function PlanarDistance(current: Waypoint, target: Waypoint): (d: real)
      ensures HypotLaws(hypot) ==> d >= 0.0
    {
      hypot(target.x - current.x, target.y - current.y)
    }

    /** `value / maxValue` clamped from above at 1.0. */
    function Normalize(value: real, maxValue: real): (n: real)
      requires maxValue != 0.0
      ensures n <= 1.0
      ensures n < 1.0 ==> n == value / maxValue
      ensures value / maxValue >= 1.0 ==> n == 1.0
      ensures 0.0 <= value <= maxValue ==> n == value / maxValue
    {
      var normalizedVal := value / maxValue;
      if normalizedVal <= 1.0 then normalizedVal else 1.0
    }

    /** No division by zero can happen: the cruise speed and every normalisation limit are non-zero. */
    predicate Defined() {
      Vehicle().cruiseSpeed != 0.0 &&
      NormLimits().maxDistance != 0.0 && NormLimits().maxCurrent != 0.0 && NormLimits().maxEnergy != 0.0 &&
      NormLimits().maxRisk != 0.0 && NormLimits().maxUncertainty != 0.0
    }

    /** The cost terms for a move of planar length `distance` against `currentCost`, to a target with
        obstacle density `risk`, at localisation uncertainty `uncertainty`. The travel term
        normalises the distance itself; the travel time is computed by the source but never used. */
    function TermsAt(distance: real, currentCost: real, risk: real, uncertainty: real): (t: CostTerms)
      requires Defined()
      ensures t.travelTimeN <= 1.0 && t.currentN <= 1.0 && t.energyN <= 1.0
      ensures t.riskN <= 1.0 && t.uncertaintyN <= 1.0
    {
      var relativeSpeed := Vehicle().cruiseSpeed + currentCost;
      var energy := Vehicle().dragCoeff * (relativeSpeed * relativeSpeed) * distance;
      var drag := Vehicle().avgDragForce * distance;
      CostTerms(
        Normalize(distance, NormLimits().maxDistance),
        Normalize(currentCost, NormLimits().maxCurrent),
        Normalize(energy, NormLimits().maxEnergy),
        drag,
        Normalize(risk, NormLimits().maxRisk),
        Normalize(uncertainty, NormLimits().maxUncertainty))
    }

    /** The cost terms of moving from `currentPos` to `targetPos` in `env`. */
    function Terms(targetPos: Waypoint, currentPos: Waypoint, env: MockEnvironmentModel): CostTerms
      requires Defined()
    {
      TermsAt(
        PlanarDistance(currentPos, targetPos),
        env.CurrentOpposition(currentPos, targetPos),
        env.ObstacleDensity(targetPos),
        env.LocalizationUncertainty())
    }

    function WeightedSum(t: CostTerms): real {
      Weights().travelTime * t.travelTimeN +
      Weights().current * t.currentN +
      Weights().energy * t.energyN +
      Weights().drag * t.drag +
      Weights().risk * t.riskN +
      Weights().uncertainty * t.uncertaintyN
    }

    /** The docking cost, or the ZeroDivisionError Python raises when the cruise speed or a limit is zero. */
    function CalculateDockingCost(targetPos: Waypoint, currentPos: Waypoint, env: MockEnvironmentModel): (r: Result<real>)
      ensures r.Ok? <==> Defined()
      ensures r.Err? ==> r.fault == ZeroDivisionError
      ensures r.Ok? ==> r.value == WeightedSum(Terms(targetPos, currentPos, env))
    {
      if !Defined() then Err(ZeroDivisionError)
      else Ok(WeightedSum(Terms(targetPos, currentPos, env)))
    }
  }

  /** The planar distance is symmetric in its two points. */
  lemma PlanarDistanceSymmetric(calculator: CostCalculator, a: Waypoint, b: Waypoint)
    requires HypotLaws(calculator.hypot)
    ensures calculator.PlanarDistance(a, b) == calculator.PlanarDistance(b, a)
  {
    assert calculator.hypot(b.x - a.x, b.y - a.y) == calculator.hypot(-(b.x - a.x), -(b.y - a.y));
    assert -(b.x - a.x) == a.x - b.x && -(b.y - a.y) == a.y - b.y;
  }

  /** Changing the depth of either point leaves the planar distance unchanged. */
  lemma PlanarDistanceIgnoresDepth(calculator: CostCalculator, a: Waypoint, b: Waypoint, za: real, zb: real)
    ensures calculator.PlanarDistance(a.(z := za), b.(z := zb)) == calculator.PlanarDistance(a, b)
  {
  }

  /** The energy and drag terms written out: energy is `drag_coeff * (cruise + current)^2 * distance`
      normalised, drag is `avg_drag_force * distance` and enters the sum unnormalised. */
  lemma TermsDecomposition(calculator: CostCalculator, distance: real, current: real, risk: real, uncertainty: real)
    requires calculator.Defined()
    ensures var v := calculator.Vehicle().cruiseSpeed + current;
      var t := calculator.TermsAt(distance, current, risk, uncertainty);
      t.energyN == calculator.Normalize(calculator.Vehicle().dragCoeff * (v * v) * distance, calculator.NormLimits().maxEnergy) &&
      t.drag == calculator.Vehicle().avgDragForce * distance &&
      t.travelTimeN == calculator.Normalize(distance, calculator.NormLimits().maxDistance)
  {
  }

  /** At zero planar distance only the current, risk and uncertainty terms contribute. */
  lemma ZeroDistanceCost(calculator: CostCalculator, targetPos: Waypoint, currentPos: Waypoint, env: MockEnvironmentModel)
    requires calculator.Defined()
    requires calculator.PlanarDistance(currentPos, targetPos) == 0.0
    ensures calculator.CalculateDockingCost(targetPos, currentPos, env) == Ok(
      calculator.Weights().current * calculator.Normalize(env.current, calculator.NormLimits().maxCurrent) +
      calculator.Weights().risk * calculator.Normalize(env.risk, calculator.NormLimits().maxRisk) +
      calculator.Weights().uncertainty * calculator.Normalize(env.uncertainty, calculator.NormLimits().maxUncertainty))
  {
    var limits := calculator.NormLimits();
    var w := calculator.Weights();
    var v := calculator.Vehicle().cruiseSpeed + env.current;
    assert calculator.Vehicle().dragCoeff * (v * v) * 0.0 == 0.0;
    assert calculator.Vehicle().avgDragForce * 0.0 == 0.0;
    var t := calculator.Terms(targetPos, currentPos, env);
    assert t == CostTerms(
      0.0, calculator.Normalize(env.current, limits.maxCurrent), 0.0, 0.0,
      calculator.Normalize(env.risk, limits.maxRisk), calculator.Normalize(env.uncertainty, limits.maxUncertainty));
    assert w.travelTime * t.travelTimeN == 0.0 && w.energy * t.energyN == 0.0 && w.drag * t.drag == 0.0;
    assert calculator.CalculateDockingCost(targetPos, currentPos, env) == Ok(calculator.WeightedSum(t));
    assert calculator.WeightedSum(t) == w.current * t.currentN + w.risk * t.riskN + w.uncertainty * t.uncertaintyN;
    assert calculator.WeightedSum(t) ==
      calculator.Weights().current * calculator.Normalize(env.current, calculator.NormLimits().maxCurrent) +
      calculator.Weights().risk * calculator.Normalize(env.risk, calculator.NormLimits().maxRisk) +
      calculator.Weights().uncertainty * calculator.Normalize(env.uncertainty, calculator.NormLimits().maxUncertainty);
  }

  /** With the stand-in environment, two dump points at the same planar distance cost the same:
      only distance-derived terms can tell candidates apart. */
  lemma EqualDistanceEqualCost(calculator: CostCalculator, a: Waypoint, b: Waypoint, currentPos: Waypoint, env: MockEnvironmentModel)
    requires calculator.PlanarDistance(currentPos, a) == calculator.PlanarDistance(currentPos, b)
    ensures calculator.CalculateDockingCost(a, currentPos, env) == calculator.CalculateDockingCost(b, currentPos, env)
  {
  }
}
