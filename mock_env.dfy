/** The deterministic stand-in environment (stage3_action/environment/mock_env.py): three stored
    readings returned whatever is asked. */
module MockEnv {
  import opened ActionEntity

  datatype MockEnvironmentModel = MockEnvironmentModel(current: real := 0.0, risk: real := 0.0, uncertainty: real := 0.0)
  {
    /** The water current opposing a move from `here` to `target`. */
    function CurrentOpposition(here: Waypoint, target: Waypoint): (c: real)
    {
      current
    }

    /** The obstacle density around `target`. */
    function ObstacleDensity(target: Waypoint): (d: real)
    {
      risk
    }

    function LocalizationUncertainty(): (u: real)
    {
      uncertainty
    }
  }

  /** Every reading is the stored constant: the waypoints asked about make no difference. */
  lemma QueriesIgnoreWaypoints(env: MockEnvironmentModel, a: Waypoint, b: Waypoint, c: Waypoint, d: Waypoint)
    ensures env.CurrentOpposition(a, b) == env.CurrentOpposition(c, d) == env.current
    ensures env.ObstacleDensity(a) == env.ObstacleDensity(c) == env.risk
    ensures env.LocalizationUncertainty() == env.uncertainty
  {
  }

  /** All three readings default to zero. */
  lemma DefaultsAreZero(a: Waypoint, b: Waypoint)
    ensures MockEnvironmentModel() == MockEnvironmentModel(0.0, 0.0, 0.0)
    ensures MockEnvironmentModel().CurrentOpposition(a, b) == 0.0
    ensures MockEnvironmentModel().ObstacleDensity(b) == 0.0
    ensures MockEnvironmentModel().LocalizationUncertainty() == 0.0
  {
  }
}
