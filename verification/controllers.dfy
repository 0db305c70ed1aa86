/**
 * The PID-family controller of the DC-motor and temperature-lab tools: its
 * constructor and the Ziegler-Nichols tuning rule for a first-order-plus-dead-time
 * plant (static gain K, dead time theta, time constant tau), sampled every Ts.
 *
 * Arithmetic is over exact reals; `float('inf')` is the `Infinite` integral time.
 */
module Controllers {
  import opened Wrappers

  /** An integral time: a finite number of seconds, or infinite (no integral action). */
  datatype IntegralTime = Finite(time: real) | Infinite

  /** The gain triple a tuning rule returns. */
  datatype Gains = Gains(kp: real, ti: IntegralTime, td: real)

  /** What the tuning rule raises instead of returning gains. */
  datatype TuneError =
    | ZeroDivision        // K * theta_corrected is zero
    | UnboundGains        // a control type outside P, PI, PID leaves Kp, Ti, Td unassigned

  predicate KnownControlType(controlType: string) {
    controlType == "P" || controlType == "PI" || controlType == "PID"
  }

  /** Dead time corrected by half a sample period for discrete control. */
  function CorrectedDeadTime(theta: real, ts: real): real {
    theta + ts / 2.0
  }

  /**
   * The Ziegler-Nichols open-loop rule. Each gain is stated by the equation it
   * solves: `Kp * K * theta_c` is `tau` scaled by 1, 0.9 or 1.2.
   */
  function TuneZieglerNichols(k: real, theta: real, tau: real, ts: real, controlType: string := "PI"): (r: Result<Gains, TuneError>)
    ensures !KnownControlType(controlType) <==> r == Failure(UnboundGains)
    ensures KnownControlType(controlType) && k * CorrectedDeadTime(theta, ts) == 0.0 <==> r == Failure(ZeroDivision)
    ensures r.Success? && controlType == "P" ==>
      && r.value.kp * k * CorrectedDeadTime(theta, ts) == tau
      && r.value.ti == Infinite
      && r.value.td == 0.0
    ensures r.Success? && controlType == "PI" ==>
      && r.value.kp * k * CorrectedDeadTime(theta, ts) == 0.9 * tau
      && r.value.ti.Finite? && 0.3 * r.value.ti.time == CorrectedDeadTime(theta, ts)
      && r.value.td == 0.0
    ensures r.Success? && controlType == "PID" ==>
      && r.value.kp * k * CorrectedDeadTime(theta, ts) == 1.2 * tau
      && r.value.ti.Finite? && r.value.ti.time == 2.0 * CorrectedDeadTime(theta, ts)
      && 2.0 * r.value.td == CorrectedDeadTime(theta, ts)
  {
    var thetaCorrected := CorrectedDeadTime(theta, ts);
    if !KnownControlType(controlType) then Failure(UnboundGains)
    else if k * thetaCorrected == 0.0 then Failure(ZeroDivision)
    else if controlType == "P" then
      Success(Gains(tau / (k * thetaCorrected), Infinite, 0.0))
    else if controlType == "PI" then
      Success(Gains((0.9 * tau) / (k * thetaCorrected), Finite(thetaCorrected / 0.3), 0.0))
    else
      Success(Gains((1.2 * tau) / (k * thetaCorrected), Finite(2.0 * thetaCorrected), 0.5 * thetaCorrected))
  }

  /**
   * For a plant with positive gain and time constant, non-negative dead time and
   * a positive sample period, every known control type yields a positive Kp, a
   * positive or infinite Ti and a non-negative Td.
   */
  lemma ZieglerNicholsPositive(k: real, theta: real, tau: real, ts: real, controlType: string)
    requires 0.0 < k && 0.0 < tau && 0.0 <= theta && 0.0 < ts
    requires KnownControlType(controlType)
    ensures TuneZieglerNichols(k, theta, tau, ts, controlType).Success?
    ensures TuneZieglerNichols(k, theta, tau, ts, controlType).value.kp > 0.0
    ensures TuneZieglerNichols(k, theta, tau, ts, controlType).value.ti.Finite? ==>
      TuneZieglerNichols(k, theta, tau, ts, controlType).value.ti.time > 0.0
    ensures TuneZieglerNichols(k, theta, tau, ts, controlType).value.td >= 0.0
  {
    var thetaCorrected := CorrectedDeadTime(theta, ts);
    assert 0.0 < thetaCorrected;
    assert 0.0 < k * thetaCorrected;
  }

  /**
   * The three rules share one corrected dead time: the PI and PID gains are 0.9
   * and 1.2 times the P gain, the PID integral time is 0.6 times the PI one,
   * and the PID derivative time is a quarter of its integral time.
   */
  lemma ZieglerNicholsRatios(k: real, theta: real, tau: real, ts: real)
    requires TuneZieglerNichols(k, theta, tau, ts, "P").Success?
    ensures TuneZieglerNichols(k, theta, tau, ts, "PI").Success?
    ensures TuneZieglerNichols(k, theta, tau, ts, "PID").Success?
    ensures TuneZieglerNichols(k, theta, tau, ts, "PI").value.kp
         == 0.9 * TuneZieglerNichols(k, theta, tau, ts, "P").value.kp
    ensures TuneZieglerNichols(k, theta, tau, ts, "PID").value.kp
         == 1.2 * TuneZieglerNichols(k, theta, tau, ts, "P").value.kp
    ensures TuneZieglerNichols(k, theta, tau, ts, "PID").value.ti.time
         == 0.6 * TuneZieglerNichols(k, theta, tau, ts, "PI").value.ti.time
    ensures 4.0 * TuneZieglerNichols(k, theta, tau, ts, "PID").value.td
         == TuneZieglerNichols(k, theta, tau, ts, "PID").value.ti.time
  {
    var thetaCorrected := CorrectedDeadTime(theta, ts);
    var p := TuneZieglerNichols(k, theta, tau, ts, "P").value;
    var pi := TuneZieglerNichols(k, theta, tau, ts, "PI").value;
    var pid := TuneZieglerNichols(k, theta, tau, ts, "PID").value;
    assert k * thetaCorrected != 0.0;
    assert p.kp == tau / (k * thetaCorrected);
    assert pi.kp == (0.9 * tau) / (k * thetaCorrected);
    assert pid.kp == (1.2 * tau) / (k * thetaCorrected);
  }

  /** Without a control type the rule tunes a PI controller. */
  lemma ZieglerNicholsDefaultIsPI(k: real, theta: real, tau: real, ts: real)
    ensures TuneZieglerNichols(k, theta, tau, ts) == TuneZieglerNichols(k, theta, tau, ts, "PI")
  {
  }

  /** K = 1, theta = 2, tau = 10, Ts = 1: theta_c = 2.5 and the P rule gives Kp = 4, Ti infinite, Td = 0. */
  lemma ZieglerNicholsExampleP()
    ensures TuneZieglerNichols(1.0, 2.0, 10.0, 1.0, "P") == Success(Gains(4.0, Infinite, 0.0))
  {
  }

  /** The same plant under the PI rule: Kp = 3.6, Ti = 2.5 / 0.3, Td = 0. */
  lemma ZieglerNicholsExamplePI()
    ensures TuneZieglerNichols(1.0, 2.0, 10.0, 1.0, "PI") == Success(Gains(3.6, Finite(2.5 / 0.3), 0.0))
  {
  }

  /** The same plant under the PID rule: Kp = 4.8, Ti = 5, Td = 1.25. */
  lemma ZieglerNicholsExamplePID()
    ensures TuneZieglerNichols(1.0, 2.0, 10.0, 1.0, "PID") == Success(Gains(4.8, Finite(5.0), 1.25))
  {
  }

  // ---------------------------------------------------------------------------
  // The controller object
  // ---------------------------------------------------------------------------

  /**
   * Tuning parameters (`None` where the caller gave none) and the recurrence
   * memory u[k-1], e[k-1], e[k-2].
   */
  datatype Controller = Controller(
    kp: real,
    ti: Option<IntegralTime>,
    td: Option<real>,
    ts: real,
    uPrev1: real,
    ePrev1: real,
    ePrev2: real)

  /** No control action and no error remembered yet. */
  predicate AtRest(c: Controller) {
    c.uPrev1 == 0.0 && c.ePrev1 == 0.0 && c.ePrev2 == 0.0
  }

  /** The constructor: the tuning parameters are stored as given and the memory starts at zero. */
  function NewController(kp: real, ti: Option<IntegralTime> := None, td: Option<real> := None, ts: real := 1.0): (c: Controller)
    ensures c.kp == kp && c.ti == ti && c.td == td && c.ts == ts
    ensures AtRest(c)
  {
    Controller(kp, ti, td, ts, 0.0, 0.0, 0.0)
  }

  /** The constructor's defaults: no integral time, no derivative time, a one-second period. */
  lemma NewControllerDefaults(kp: real)
    ensures NewController(kp) == Controller(kp, None, None, 1.0, 0.0, 0.0, 0.0)
  {
  }
}
