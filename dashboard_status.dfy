/** The dashboard's classification of an air-quality reading: its own
    `getAqiInfo`, and the `EnvironmentalMonitoring` panel with its three status
    helpers, all applied to the average index of the fetched markers. */
module DashboardStatus {
  import opened AqiTier

  /** A JavaScript number as `getAqiInfo` receives it: NaN, or a finite value. */
  datatype JsNumber = NaN | Num(value: real)

  /** `Math.round`: the nearest integer, a half rounded up. */
  function Round(x: real): (r: int)
    ensures r as real - 0.5 <= x < r as real + 0.5
  {
    (x + 0.5).Floor
  }

  /** What `getAqiInfo` returns: the tier (its `status` is `Label(tier)`) and
      the badge's CSS classes. */
  datatype AqiInfo = AqiInfo(tier: Tier, className: string) {
    function Status(): string {
      Label(tier)
    }
  }

  /** Classifies a reading: NaN is N/A; any other value is rounded first, then
      placed in the band whose inclusive upper bound it does not exceed. */
  function GetAqiInfo(aqi: JsNumber): (r: AqiInfo)
    ensures r.tier == NotAvailable <==> aqi.NaN?
    ensures aqi.Num? ==> InBand(r.tier, Round(aqi.value))
  {
    if aqi.NaN? then AqiInfo(NotAvailable, "text-gray-800 bg-gray-100")
    else
      var val := Round(aqi.value);
      if val <= 50 then AqiInfo(Good, "text-green-800 bg-green-100")
      else if val <= 100 then AqiInfo(Moderate, "text-yellow-800 bg-yellow-100")
      else if val <= 150 then AqiInfo(UnhealthyForSensitive, "text-orange-800 bg-orange-100")
      else if val <= 200 then AqiInfo(Unhealthy, "text-red-800 bg-red-100")
      else if val <= 300 then AqiInfo(VeryUnhealthy, "text-purple-800 bg-purple-100")
      else AqiInfo(Hazardous, "text-maroon-800 bg-maroon-100")
  }

  /** Rounding happens before the bounds are compared: 50.4 is still Good,
      50.5 is already Moderate. */
  lemma GetAqiInfoRoundsFirst()
    ensures GetAqiInfo(Num(50.4)).tier == Good
    ensures GetAqiInfo(Num(50.5)).tier == Moderate
  {
    assert Round(50.4) == 50;
    assert Round(50.5) == 51;
  }

  /** A higher reading never gets a less severe tier. */
  lemma GetAqiInfoMonotone(x: real, y: real)
    requires x <= y
    ensures GetAqiInfo(Num(x)).tier != NotAvailable
    ensures Severity(GetAqiInfo(Num(x)).tier) <= Severity(GetAqiInfo(Num(y)).tier)
  {
    assert Round(x) <= Round(y);
    BandsOrdered(GetAqiInfo(Num(x)).tier, Round(x), GetAqiInfo(Num(y)).tier, Round(y));
  }

  /** Text and CSS classes of one status badge of the panel. */
  datatype StatusInfo = StatusInfo(text: string, className: string)

  /** `getSystemStatus`: inclusive bounds 50, 100, 150, 200 on the unrounded
      average, else Critical. */
  function SystemStatus(aqi: real): (r: StatusInfo)
    ensures r.text == "Nominal" <==> aqi <= 50.0
    ensures r.text == "Normal" <==> 50.0 < aqi <= 100.0
    ensures r.text == "Elevated" <==> 100.0 < aqi <= 150.0
    ensures r.text == "High Alert" <==> 150.0 < aqi <= 200.0
    ensures r.text == "Critical" <==> 200.0 < aqi
  {
    if aqi <= 50.0 then StatusInfo("Nominal", "text-green-600 bg-green-100")
    else if aqi <= 100.0 then StatusInfo("Normal", "text-blue-600 bg-blue-100")
    else if aqi <= 150.0 then StatusInfo("Elevated", "text-yellow-800 bg-yellow-100")
    else if aqi <= 200.0 then StatusInfo("High Alert", "text-orange-800 bg-orange-100")
    else StatusInfo("Critical", "text-red-800 bg-red-100")
  }

  /** `getVentilationStatus`: Optimal up to 100, Increased Load up to 150,
      Maximum Load above. */
  function VentilationStatus(aqi: real): (r: StatusInfo)
    ensures r.text == "Optimal" <==> aqi <= 100.0
    ensures r.text == "Increased Load" <==> 100.0 < aqi <= 150.0
    ensures r.text == "Maximum Load" <==> 150.0 < aqi
  {
    if aqi <= 100.0 then StatusInfo("Optimal", "text-green-600 bg-green-100")
    else if aqi <= 150.0 then StatusInfo("Increased Load", "text-yellow-800 bg-yellow-100")
    else StatusInfo("Maximum Load", "text-red-800 bg-red-100")
  }

  /** `getEmergencyStatus`: Active exactly above 150. */
  function EmergencyStatus(aqi: real): (r: StatusInfo)
    ensures r.text == "Active" <==> 150.0 < aqi
    ensures r.text == "Standby" <==> aqi <= 150.0
  {
    if aqi <= 150.0 then StatusInfo("Standby", "text-green-600 bg-green-100")
    else StatusInfo("Active", "text-red-800 bg-red-100")
  }

  /** The emergency systems are active exactly when ventilation is at maximum
      load, and then the gas-level status is High Alert or Critical. */
  lemma EmergencyAgreesWithVentilation(aqi: real)
    ensures EmergencyStatus(aqi).text == "Active" <==> VentilationStatus(aqi).text == "Maximum Load"
    ensures EmergencyStatus(aqi).text == "Active" ==>
      SystemStatus(aqi).text in {"High Alert", "Critical"}
  {
  }

  /** On a whole-number average the panel is consistent with the air-quality
      badge: emergency is active exactly from the Unhealthy tier up, and the
      gas-level status is Nominal exactly when the badge says Good. */
  lemma StatusesAgreeWithTierOnIntegers(n: int)
    ensures var t := GetAqiInfo(Num(n as real)).tier;
      t != NotAvailable &&
      (EmergencyStatus(n as real).text == "Active" <==> Severity(t) >= Severity(Unhealthy)) &&
      (SystemStatus(n as real).text == "Nominal" <==> t == Good)
  {
    assert Round(n as real) == n;
  }

  /** The status helpers compare the unrounded average while `getAqiInfo`
      rounds it: an average of 150.4 shows "Unhealthy for Sensitive" next to
      active emergency systems. */
  lemma FractionalAverageSplitsBadges()
    ensures GetAqiInfo(Num(150.4)).tier == UnhealthyForSensitive
    ensures EmergencyStatus(150.4).text == "Active"
  {
    assert Round(150.4) == 150;
  }

  /** What `EnvironmentalMonitoring` renders. */
  datatype MonitoringView =
    | Placeholder
    | Panel(shownAqi: int, airQuality: AqiInfo, gasLevels: StatusInfo,
            ventilation: StatusInfo, emergency: StatusInfo)

  /** The panel for an average and a station count: the loading placeholder
      when there are no stations and the average is 0, else the four badges
      computed from the same average. */
  function EnvironmentalMonitoring(averageAqi: real, stationCount: nat): (v: MonitoringView)
    ensures v.Placeholder? <==> stationCount == 0 && averageAqi == 0.0
    ensures v.Panel? ==>
      v.airQuality.tier != NotAvailable &&
      InBand(v.airQuality.tier, v.shownAqi) &&
      v.shownAqi as real - 0.5 <= averageAqi < v.shownAqi as real + 0.5
    ensures v.Panel? ==>
      v.airQuality == GetAqiInfo(Num(averageAqi)) && v.gasLevels == SystemStatus(averageAqi) &&
      v.ventilation == VentilationStatus(averageAqi) && v.emergency == EmergencyStatus(averageAqi)
  {
    if stationCount == 0 && averageAqi == 0.0 then Placeholder
    else
      Panel(Round(averageAqi), GetAqiInfo(Num(averageAqi)), SystemStatus(averageAqi),
            VentilationStatus(averageAqi), EmergencyStatus(averageAqi))
  }
}
