/**
 * The threshold classifiers of the dashboard (updateHeartRate, updateSpo2,
 * updateTemperature) and the annotation zones the charts draw for the same
 * metrics, with the lemmas that compare the two.
 */
module Bands {
  import opened Values

  /** The CSS class a metric card gets: `normal`, `warning` or `critical`. */
  datatype Band = Normal | Warning | Critical

  datatype Metric = HeartRate | Spo2 | Temperature

  /** The `danger` banner raised in a critical branch: which metric and the reading in its message. */
  datatype Alert = Alert(metric: Metric, reading: real)

  /** The status text a card shows, its band, and the alert the classification raised, if any. */
  datatype Classified = Classified(status: string, band: Band, alert: Option<Alert>)

  const NormalStatus := "Normal"

  /**
   * updateHeartRate's cascade. A falsy reading (absent, null or 0) leaves the
   * card Normal without an alert; otherwise above 130 is critical with an
   * alert, 101 to 130 is "Elevado", below 60 is "Bajo", and 60 to 100 is Normal.
   */
  function ClassifyHeartRate(bpm: Value): (c: Classified)
    ensures c.alert.Some? <==> c.band == Critical
    ensures !bpm.Truthy() ==> c == Classified(NormalStatus, Normal, None)
    ensures bpm.Truthy() ==>
      && (c.band == Critical <==> bpm.x > 130.0)
      && (c.band == Warning <==> (100.0 < bpm.x <= 130.0 || bpm.x < 60.0))
      && (c.band == Normal <==> 60.0 <= bpm.x <= 100.0)
      && (c.status == "Elevado" <==> 100.0 < bpm.x <= 130.0)
      && (c.status == "Bajo" <==> bpm.x < 60.0)
      && (c.alert.Some? ==> c.alert.value == Alert(HeartRate, bpm.x))
  {
    if bpm.Truthy() then
      if bpm.x > 130.0 then Classified("Alerta de Estrés", Critical, Some(Alert(HeartRate, bpm.x)))
      else if bpm.x > 100.0 then Classified("Elevado", Warning, None)
      else if bpm.x < 60.0 then Classified("Bajo", Warning, None)
      else Classified(NormalStatus, Normal, None)
    else
      Classified(NormalStatus, Normal, None)
  }

  /**
   * updateSpo2's cascade: below 93 is critical with an alert, 93 up to but not
   * including 97 is "Moderada", everything else (97 and above, or a falsy
   * reading) is Normal.
   */
  function ClassifySpo2(spo2: Value): (c: Classified)
    ensures c.alert.Some? <==> c.band == Critical
    ensures !spo2.Truthy() ==> c == Classified(NormalStatus, Normal, None)
    ensures spo2.Truthy() ==>
      && (c.band == Critical <==> spo2.x < 93.0)
      && (c.band == Warning <==> 93.0 <= spo2.x < 97.0)
      && (c.band == Normal <==> spo2.x >= 97.0)
      && (c.status == "Moderada" <==> c.band == Warning)
      && (c.alert.Some? ==> c.alert.value == Alert(Spo2, spo2.x))
  {
    if spo2.Truthy() then
      if spo2.x < 93.0 then Classified("Oxigenación Baja", Critical, Some(Alert(Spo2, spo2.x)))
      else if spo2.x < 97.0 then Classified("Moderada", Warning, None)
      else Classified(NormalStatus, Normal, None)
    else
      Classified(NormalStatus, Normal, None)
  }

  /**
   * updateTemperature's cascade as the code has it: above 38 is critical
   * ("Golpe de Calor") with an alert, above 37.5 up to 38 is "Fiebre", below
   * 36 is "Hipotermia", and 36 to 37.5 (or a falsy reading) is Normal.
   */
  function ClassifyTemperature(temp: Value): (c: Classified)
    ensures c.alert.Some? <==> c.band == Critical
    ensures !temp.Truthy() ==> c == Classified(NormalStatus, Normal, None)
    ensures temp.Truthy() ==>
      && (c.band == Critical <==> temp.x > 38.0)
      && (c.band == Warning <==> (37.5 < temp.x <= 38.0 || temp.x < 36.0))
      && (c.band == Normal <==> 36.0 <= temp.x <= 37.5)
      && (c.status == "Fiebre" <==> 37.5 < temp.x <= 38.0)
      && (c.status == "Hipotermia" <==> temp.x < 36.0)
      && (c.alert.Some? ==> c.alert.value == Alert(Temperature, temp.x))
  {
    if temp.Truthy() then
      if temp.x > 38.0 then Classified("Golpe de Calor", Critical, Some(Alert(Temperature, temp.x)))
      else if temp.x > 37.5 then Classified("Fiebre", Warning, None)
      else if temp.x < 36.0 then Classified("Hipotermia", Warning, None)
      else Classified(NormalStatus, Normal, None)
    else
      Classified(NormalStatus, Normal, None)
  }

  /** A box annotation drawn on a chart, from `yMin` to `yMax`. */
  datatype Zone = Zone(yMin: real, yMax: real)

  const HeartRateNormalZone := Zone(60.0, 100.0)
  const HeartRateWarningZone := Zone(100.0, 130.0)

  const Spo2NormalZone := Zone(97.0, 100.0)
  const Spo2WarningZone := Zone(93.0, 97.0)
  const Spo2CriticalZone := Zone(85.0, 93.0)

  const TemperatureNormalZone := Zone(36.1, 37.2)
  const TemperatureFeverZone := Zone(37.2, 38.5)
  const TemperatureCriticalZone := Zone(38.5, 40.0)

  /**
   * The heart-rate chart's zones sit on the classifier's boundaries: the
   * normal box is exactly the Normal band, the warning box (without its lower
   * edge, which belongs to Normal) is exactly the "Elevado" band, and above the
   * warning box is exactly Critical.
   */
  lemma HeartRateZonesMatchClassifier(x: real)
    requires x != 0.0
    ensures HeartRateNormalZone.yMax == HeartRateWarningZone.yMin
    ensures ClassifyHeartRate(Num(x)).band == Normal <==>
              HeartRateNormalZone.yMin <= x <= HeartRateNormalZone.yMax
    ensures ClassifyHeartRate(Num(x)).status == "Elevado" <==>
              HeartRateWarningZone.yMin < x <= HeartRateWarningZone.yMax
    ensures ClassifyHeartRate(Num(x)).band == Critical <==> x > HeartRateWarningZone.yMax
  {
  }

  /**
   * The SpO2 chart's zones sit on the classifier's boundaries: below the top
   * of the critical box is Critical, the moderate box (half-open at the top)
   * is Warning, and from the bottom of the normal box up is Normal.
   */
  lemma Spo2ZonesMatchClassifier(x: real)
    requires x != 0.0
    ensures Spo2CriticalZone.yMax == Spo2WarningZone.yMin
    ensures Spo2WarningZone.yMax == Spo2NormalZone.yMin
    ensures ClassifySpo2(Num(x)).band == Critical <==> x < Spo2CriticalZone.yMax
    ensures ClassifySpo2(Num(x)).band == Warning <==> Spo2WarningZone.yMin <= x < Spo2WarningZone.yMax
    ensures ClassifySpo2(Num(x)).band == Normal <==> x >= Spo2NormalZone.yMin
  {
  }

  predicate InZone(x: real, z: Zone) {
    z.yMin <= x <= z.yMax
  }

  /**
   * The temperature chart's zones do not sit on the classifier's boundaries:
   * 38.2 is Critical for the classifier but inside the fever box, 37.3 is
   * Normal for the classifier but inside the fever box, and 36.05 is Normal
   * for the classifier but below the normal box.
   */
  lemma TemperatureZonesDisagreeWithClassifier()
    ensures ClassifyTemperature(Num(38.2)).band == Critical && InZone(38.2, TemperatureFeverZone)
    ensures ClassifyTemperature(Num(37.3)).band == Normal && InZone(37.3, TemperatureFeverZone)
    ensures ClassifyTemperature(Num(36.05)).band == Normal && 36.05 < TemperatureNormalZone.yMin
  {
  }
}
