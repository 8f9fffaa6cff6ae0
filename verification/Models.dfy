/** Entities and constants shared by the services. */
module Models {
  import opened Wrappers
  import opened Clock

  type PlugId = string
  type VehicleId = string
  type SessionId = string

  const DEFAULT_CHARGING_EFFICIENCY: real := 0.8
  const MAX_PERCENT: real := 100.0
  const TWO_STAGE_HOLD_FRACTION: real := 0.8
  const MIN_TWO_STAGE_STAGE_DURATION_MIN: int := 15
  const EPSILON_KWH: real := 0.002

  /** The charging data of a vehicle, merged from its catalogue model. */
  datatype Vehicle = Vehicle(
    capacityKwh: real,
    chargerOutputW: real,
    chargingEfficiency: real,
    time0to100Min: Option<int>,
    time0to80Min: Option<int>,
    time20to80Min: Option<int>,
    time20to100Min: Option<int>,
    currentPercent: real,
    targetPercent: real)
  {
    /** Wall-to-battery efficiency, with the default for a missing value. */
    function Efficiency(): (r: real)
      ensures r > 0.0
    {
      if chargingEfficiency <= 0.0 then DEFAULT_CHARGING_EFFICIENCY else chargingEfficiency
    }

    function HoldPercent(): real {
      targetPercent * TWO_STAGE_HOLD_FRACTION
    }
  }

  /** A cached meter reading: instantaneous power and the cumulative wall-side total. */
  datatype EnergyData = EnergyData(power: real, total: real)

  function Max(a: real, b: real): (r: real)
    ensures r >= a && r >= b && (r == a || r == b)
  {
    if a >= b then a else b
  }

  function Min(a: real, b: real): (r: real)
    ensures r <= a && r <= b && (r == a || r == b)
  {
    if a <= b then a else b
  }
}
