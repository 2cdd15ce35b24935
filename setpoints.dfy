/**
  The setpoint planner of the thermostat client: the validation and planning part
  of `SetTemp` in daikin/daikin.go.

  A request carries a cooling and a heating setpoint, where 0 means "omitted". The
  planner rejects equal setpoints and a cool setpoint below the heat setpoint before
  it looks at the device; then it resolves the omitted side from the device's current
  setpoints and its minimum delta (cool first, then heat), checks the allowed range,
  and produces the update payload.

  Temperatures are exact reals; the Go code uses float32.
 */
module Setpoints {
  import opened Wrappers

  /** The caller's request; 0 in either field means that side is omitted. */
  datatype SetTempParams = SetTempParams(coolSetpoint: real, heatSetpoint: real)

  /** The five fields of the device record that the planner reads. */
  datatype DeviceInfo = DeviceInfo(
    cspHome: real,       // current cooling setpoint
    hspHome: real,       // current heating setpoint
    tempDeltaMin: real,  // minimum gap between cool and heat
    tempSPMin: real,     // lowest allowed setpoint
    tempSPMax: real      // highest allowed setpoint
  )

  /** The device update `{cspHome, hspHome, schedOverride}` that SetTemp submits. */
  datatype Payload = Payload(cspHome: real, hspHome: real, schedOverride: int)

  /** The four ways SetTemp fails before it submits anything. */
  datatype SetTempError =
    | InvalidSetpoints   // "invalid setpoints provided"
    | CoolBelowHeat      // "cool setpoint can not be lower than heat setpoint"
    | DeviceInfoFailed   // "get device info failed"
    | OutOfRange         // "setpoint(s) outside of allowable range"

  /** A manual setpoint change always overrides the schedule. */
  const ScheduleOverride: int := 1

  /** The sentinel for an omitted setpoint. */
  predicate Omitted(x: real) {
    x == 0.0
  }

  predicate InRange(info: DeviceInfo, x: real) {
    info.tempSPMin <= x <= info.tempSPMax
  }

  function Max(a: real, b: real): real {
    if a < b then b else a
  }

  function Min(a: real, b: real): real {
    if a < b then a else b
  }

  /**
    The two gates that run before any device lookup: equal setpoints (both omitted
    included) are invalid, and two supplied setpoints with cool below heat are rejected.
   */
  function Gate(p: SetTempParams): (g: Option<SetTempError>)
    ensures g == Some(InvalidSetpoints) <==> p.coolSetpoint == p.heatSetpoint
    ensures g == Some(CoolBelowHeat) <==>
      !Omitted(p.coolSetpoint) && !Omitted(p.heatSetpoint) && p.coolSetpoint < p.heatSetpoint
    ensures g.Some? ==> g.value in {InvalidSetpoints, CoolBelowHeat}
  {
    if p.coolSetpoint == p.heatSetpoint then Some(InvalidSetpoints)
    else if !Omitted(p.coolSetpoint) && !Omitted(p.heatSetpoint) && p.coolSetpoint < p.heatSetpoint
    then Some(CoolBelowHeat)
    else None
  }

  /**
    The final cool setpoint: a supplied one is kept; an omitted one is the smallest
    value that is at least the device's current cool setpoint and leaves the minimum
    delta above the heat setpoint.
   */
  function ResolvedCool(p: SetTempParams, info: DeviceInfo): (cool: real)
    ensures !Omitted(p.coolSetpoint) ==> cool == p.coolSetpoint
    ensures Omitted(p.coolSetpoint) ==>
      && cool >= info.cspHome
      && cool - p.heatSetpoint >= info.tempDeltaMin
      && (cool == info.cspHome || cool == p.heatSetpoint + info.tempDeltaMin)
  {
    if Omitted(p.coolSetpoint) then Max(info.cspHome, p.heatSetpoint + info.tempDeltaMin)
    else p.coolSetpoint
  }

  /**
    The final heat setpoint, given the already final cool setpoint: a supplied one is
    kept; an omitted one is the largest value that is at most the device's current
    heat setpoint and leaves the minimum delta below cool.
   */
  function ResolvedHeat(p: SetTempParams, info: DeviceInfo, cool: real): (heat: real)
    ensures !Omitted(p.heatSetpoint) ==> heat == p.heatSetpoint
    ensures Omitted(p.heatSetpoint) ==>
      && heat <= info.hspHome
      && cool - heat >= info.tempDeltaMin
      && (heat == info.hspHome || heat == cool - info.tempDeltaMin)
  {
    if Omitted(p.heatSetpoint) then Min(info.hspHome, cool - info.tempDeltaMin)
    else p.heatSetpoint
  }

  /**
    Reference definition of the planner. `lookup` is the outcome of fetching the
    device record (None when getting a token or the record failed).
   */
  function Plan(p: SetTempParams, lookup: Option<DeviceInfo>): (r: Result<Payload, SetTempError>)
    // the gates decide without the device record
    ensures Gate(p).Some? ==> r == Failure(Gate(p).value)
    // an accepted plan needs the record, lies in its range and overrides the schedule
    ensures r.Success? ==>
      && lookup.Some?
      && InRange(lookup.value, r.value.cspHome)
      && InRange(lookup.value, r.value.hspHome)
      && r.value.schedOverride == ScheduleOverride
    // a supplied setpoint is never altered
    ensures r.Success? && !Omitted(p.coolSetpoint) ==> r.value.cspHome == p.coolSetpoint
    ensures r.Success? && !Omitted(p.heatSetpoint) ==> r.value.hspHome == p.heatSetpoint
  {
    if Gate(p).Some? then Failure(Gate(p).value)
    else if lookup.None? then Failure(DeviceInfoFailed)
    else
      var info := lookup.value;
      var cool := ResolvedCool(p, info);
      var heat := ResolvedHeat(p, info, cool);
      if InRange(info, cool) && InRange(info, heat) then Success(Payload(cool, heat, ScheduleOverride))
      else Failure(OutOfRange)
  }

  /**
    SetTemp up to the submission of the update: the gates, the device lookup, the
    defaulting and delta adjustment of cool and then of heat, the range gate, and the
    payload. It returns the payload that would be submitted.
   */
  method SetTemp(params: SetTempParams, lookup: Option<DeviceInfo>) returns (r: Result<Payload, SetTempError>)
    ensures r == Plan(params, lookup)
  {
    var cool, heat := params.coolSetpoint, params.heatSetpoint;

    if cool == heat {
      return Failure(InvalidSetpoints);
    }

    if cool != 0.0 && heat != 0.0 && cool < heat {
      return Failure(CoolBelowHeat);
    }

    if lookup.None? {
      return Failure(DeviceInfoFailed);
    }
    var info := lookup.value;

    if cool == 0.0 {
      // heat supplied: default cool, then raise it if the delta is not met
      cool := info.cspHome;
      if cool - heat < info.tempDeltaMin {
        cool := heat + info.tempDeltaMin;
      }
    }

    if heat == 0.0 {
      // cool supplied: default heat, then lower it if the delta is not met
      heat := info.hspHome;
      if cool - heat < info.tempDeltaMin {
        heat := cool - info.tempDeltaMin;
      }
    }

    if cool < info.tempSPMin || cool > info.tempSPMax || heat < info.tempSPMin || heat > info.tempSPMax {
      return Failure(OutOfRange);
    }

    r := Success(Payload(cool, heat, ScheduleOverride));
  }

  // ---------------------------------------------------------------------------
  // Properties of the planner
  // ---------------------------------------------------------------------------

  /** Equal setpoints, both omitted included, are rejected whatever the device lookup gives. */
  lemma EqualSetpointsRejected(p: SetTempParams, lookup: Option<DeviceInfo>)
    ensures Plan(p, lookup) == Failure(InvalidSetpoints) <==> p.coolSetpoint == p.heatSetpoint
  {
  }

  /**
    A cool setpoint below the heat setpoint is rejected, whatever the lookup gives,
    exactly when both are supplied and distinct; an omitted side skips this gate.
   */
  lemma CoolBelowHeatRejected(p: SetTempParams, lookup: Option<DeviceInfo>)
    ensures Plan(p, lookup) == Failure(CoolBelowHeat) <==>
      && !Omitted(p.coolSetpoint) && !Omitted(p.heatSetpoint)
      && p.coolSetpoint < p.heatSetpoint
  {
  }

  /** The first two gates do not depend on the device: any two lookups give the same rejection. */
  lemma GatesPrecedeLookup(p: SetTempParams, l1: Option<DeviceInfo>, l2: Option<DeviceInfo>)
    requires Gate(p).Some?
    ensures Plan(p, l1) == Plan(p, l2)
    ensures Plan(p, l1).Failure? && Plan(p, l1).error in {InvalidSetpoints, CoolBelowHeat}
  {
  }

  /** A failed lookup surfaces as DeviceInfoFailed exactly when the request passed both gates. */
  lemma LookupFailurePropagates(p: SetTempParams, lookup: Option<DeviceInfo>)
    ensures Plan(p, lookup) == Failure(DeviceInfoFailed) <==> Gate(p).None? && lookup.None?
  {
  }

  /**
    With cool omitted and the request accepted, the planned cool is the device's
    current cool raised to heat + delta, and heat is the caller's.
   */
  lemma CoolDefaulted(p: SetTempParams, info: DeviceInfo)
    requires Omitted(p.coolSetpoint)
    requires Plan(p, Some(info)).Success?
    ensures Plan(p, Some(info)).value.cspHome == Max(info.cspHome, p.heatSetpoint + info.tempDeltaMin)
    ensures Plan(p, Some(info)).value.hspHome == p.heatSetpoint
  {
  }

  /**
    With heat omitted and the request accepted, the planned heat is the device's
    current heat lowered to cool - delta, and cool is the caller's.
   */
  lemma HeatDefaulted(p: SetTempParams, info: DeviceInfo)
    requires Omitted(p.heatSetpoint)
    requires Plan(p, Some(info)).Success?
    ensures Plan(p, Some(info)).value.hspHome == Min(info.hspHome, p.coolSetpoint - info.tempDeltaMin)
    ensures Plan(p, Some(info)).value.cspHome == p.coolSetpoint
  {
  }

  /** When exactly one side is omitted, an accepted plan keeps at least the minimum delta. */
  lemma DefaultedPlanKeepsDelta(p: SetTempParams, info: DeviceInfo)
    requires Omitted(p.coolSetpoint) != Omitted(p.heatSetpoint)
    requires Plan(p, Some(info)).Success?
    ensures Plan(p, Some(info)).value.cspHome - Plan(p, Some(info)).value.hspHome >= info.tempDeltaMin
  {
  }

  /**
    When both sides are supplied, no delta is enforced and nothing is adjusted: the
    request is accepted exactly when cool is above heat and both are in range, and then
    it is sent as given.
   */
  lemma SuppliedSetpointsPassThrough(p: SetTempParams, info: DeviceInfo)
    requires !Omitted(p.coolSetpoint) && !Omitted(p.heatSetpoint)
    ensures Plan(p, Some(info)).Success? <==>
      p.coolSetpoint > p.heatSetpoint && InRange(info, p.coolSetpoint) && InRange(info, p.heatSetpoint)
    ensures Plan(p, Some(info)).Success? ==>
      Plan(p, Some(info)).value == Payload(p.coolSetpoint, p.heatSetpoint, ScheduleOverride)
  {
  }

  /**
    After the gates and a successful lookup, the range gate decides: the plan is
    accepted exactly when both final values lie in [tempSPMin, tempSPMax], and then the
    payload carries exactly those values and the schedule override.
   */
  lemma RangeGateDecides(p: SetTempParams, info: DeviceInfo)
    requires Gate(p).None?
    ensures var cool := ResolvedCool(p, info); var heat := ResolvedHeat(p, info, cool);
      && (Plan(p, Some(info)) == Failure(OutOfRange) <==> !(InRange(info, cool) && InRange(info, heat)))
      && (Plan(p, Some(info)).Success? ==> Plan(p, Some(info)).value == Payload(cool, heat, ScheduleOverride))
  {
  }

  /**
    Every accepted plan has both setpoints in the device's range and overrides the
    schedule; when the device's minimum delta is positive, cool ends above heat.
   */
  lemma AcceptedPlanInRange(p: SetTempParams, lookup: Option<DeviceInfo>)
    requires Plan(p, lookup).Success?
    ensures lookup.Some?
    ensures InRange(lookup.value, Plan(p, lookup).value.cspHome)
    ensures InRange(lookup.value, Plan(p, lookup).value.hspHome)
    ensures Plan(p, lookup).value.schedOverride == 1
    ensures lookup.value.tempDeltaMin > 0.0 ==> Plan(p, lookup).value.cspHome > Plan(p, lookup).value.hspHome
  {
  }

  // ---------------------------------------------------------------------------
  // The request/response pairs of daikin_test.go. The device record there has
  // cspHome 22 and hspHome 17.5; its delta and range are only constrained as far
  // as the expected outcomes need.
  // ---------------------------------------------------------------------------

  /** `{}` is rejected as invalid, not defaulted to the device's setpoints. */
  lemma NoSetpointsScenario(lookup: Option<DeviceInfo>)
    ensures Plan(SetTempParams(0.0, 0.0), lookup) == Failure(InvalidSetpoints)
  {
  }

  lemma EqualSetpointsScenario(lookup: Option<DeviceInfo>)
    ensures Plan(SetTempParams(22.0, 22.0), lookup) == Failure(InvalidSetpoints)
  {
  }

  lemma CoolSetpointLowerScenario(lookup: Option<DeviceInfo>)
    ensures Plan(SetTempParams(20.0, 22.0), lookup) == Failure(CoolBelowHeat)
  {
  }

  lemma OutOfRangeScenario(info: DeviceInfo)
    requires info.tempSPMin > 5.0 || info.tempSPMax < 35.0
    ensures Plan(SetTempParams(35.0, 5.0), Some(info)) == Failure(OutOfRange)
  {
  }

  /** Cool 17.5 alone: heat defaults to 17.5 and is lowered by the delta to 16. */
  lemma CoolSetpointScenario(info: DeviceInfo)
    requires info.hspHome == 17.5 && info.tempDeltaMin == 1.5
    requires InRange(info, 17.5) && InRange(info, 16.0)
    ensures Plan(SetTempParams(17.5, 0.0), Some(info)) == Success(Payload(17.5, 16.0, 1))
  {
  }

  /** Heat 22 alone: cool defaults to 22 and is raised by the delta to 23.5. */
  lemma HeatSetpointScenario(info: DeviceInfo)
    requires info.cspHome == 22.0 && info.tempDeltaMin == 1.5
    requires InRange(info, 23.5) && InRange(info, 22.0)
    ensures Plan(SetTempParams(0.0, 22.0), Some(info)) == Success(Payload(23.5, 22.0, 1))
  {
  }

  /** Both supplied: 20/18 is sent as given, whatever the device's minimum delta. */
  lemma BothSetpointsScenario(info: DeviceInfo)
    requires InRange(info, 20.0) && InRange(info, 18.0)
    ensures Plan(SetTempParams(20.0, 18.0), Some(info)) == Success(Payload(20.0, 18.0, 1))
  {
  }
}
