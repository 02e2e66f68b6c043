/**
 * The dashboard's per-metric status: each reading falls in a safe, warning
 * or danger band. The upper danger boundaries are the alert thresholds of
 * the notification hook.
 */
module Dashboard {
  import SensorNotifications

  datatype SensorStatus = Safe | Warning | Danger

  /** The severity order safe < warning < danger. */
  function Severity(s: SensorStatus): nat
  {
    match s
    case Safe => 0
    case Warning => 1
    case Danger => 2
  }

  /** Danger above 35 °C, warning in (30, 35], safe up to 30. */
  function TemperatureStatus(temp: real): (s: SensorStatus)
    ensures s == Danger <==> temp > 35.0
    ensures s == Warning <==> 30.0 < temp <= 35.0
    ensures s == Safe <==> temp <= 30.0
  {
    if temp > 35.0 then Danger
    else if temp > 30.0 then Warning
    else Safe
  }

  /** Danger outside [40, 70], warning in (65, 70] or [40, 45), safe in [45, 65]. */
  function HumidityStatus(humidity: real): (s: SensorStatus)
    ensures s == Danger <==> humidity > 70.0 || humidity < 40.0
    ensures s == Warning <==> (65.0 < humidity <= 70.0) || (40.0 <= humidity < 45.0)
    ensures s == Safe <==> 45.0 <= humidity <= 65.0
  {
    if humidity > 70.0 || humidity < 40.0 then Danger
    else if humidity > 65.0 || humidity < 45.0 then Warning
    else Safe
  }

  /** Danger above 0.5, warning in (0.3, 0.5], safe up to 0.3. */
  function GasStatus(gas: real): (s: SensorStatus)
    ensures s == Danger <==> gas > 0.5
    ensures s == Warning <==> 0.3 < gas <= 0.5
    ensures s == Safe <==> gas <= 0.3
  {
    if gas > 0.5 then Danger
    else if gas > 0.3 then Warning
    else Safe
  }

  /** Danger above 2, warning in (1, 2], safe up to 1. */
  function VibrationStatus(vibration: real): (s: SensorStatus)
    ensures s == Danger <==> vibration > 2.0
    ensures s == Warning <==> 1.0 < vibration <= 2.0
    ensures s == Safe <==> vibration <= 1.0
  {
    if vibration > 2.0 then Danger
    else if vibration > 1.0 then Warning
    else Safe
  }

  /** Temperature, gas and vibration status never get less severe as the reading rises. */
  lemma StatusMonotone(a: real, b: real)
    requires a <= b
    ensures Severity(TemperatureStatus(a)) <= Severity(TemperatureStatus(b))
    ensures Severity(GasStatus(a)) <= Severity(GasStatus(b))
    ensures Severity(VibrationStatus(a)) <= Severity(VibrationStatus(b))
  {
  }

  /** Humidity status is not monotone: its safe band has two sides. */
  lemma HumidityNotMonotone()
    ensures Severity(HumidityStatus(30.0)) > Severity(HumidityStatus(50.0))
    ensures Severity(HumidityStatus(50.0)) < Severity(HumidityStatus(80.0))
  {
  }

  /**
   * A reading is in danger exactly when it raises an alert: temperature,
   * gas and vibration on both sides, humidity on the high side only.
   */
  lemma DangerMatchesAlert(d: SensorNotifications.Reading)
    ensures TemperatureStatus(d.temperature) == Danger
        <==> SensorNotifications.Violates(d, SensorNotifications.Temperature)
    ensures GasStatus(d.gas) == Danger <==> SensorNotifications.Violates(d, SensorNotifications.Gas)
    ensures VibrationStatus(d.vibration) == Danger
        <==> SensorNotifications.Violates(d, SensorNotifications.Vibration)
    ensures d.humidity >= 40.0 ==>
              (HumidityStatus(d.humidity) == Danger <==> SensorNotifications.Violates(d, SensorNotifications.Humidity))
  {
  }

  /** Dry grain is shown in danger but raises no alert. */
  lemma LowHumidityDangerHasNoAlert()
    ensures HumidityStatus(30.0) == Danger
    ensures SensorNotifications.Alerts(SensorNotifications.Reading(20.0, 30.0, 0.0, 0.0), {}) == []
  {
    assert SensorNotifications.SpoilageRisk(SensorNotifications.Reading(20.0, 30.0, 0.0, 0.0)) == 0;
  }
}
