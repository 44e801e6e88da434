/** The closing formulas of the statistics: average speed (km/h), average
    pace (min/km) and VAM (vertical metres per hour), each falling back to
    0 instead of dividing by zero. */
module Rates {

  /** Kilometres per hour for `distanceM` metres covered in `seconds`. */
  function AvgSpeed(distanceM: real, seconds: real): (r: real)
    ensures seconds <= 0.0 ==> r == 0.0
    ensures seconds > 0.0 ==> r * seconds == distanceM * 3.6
    ensures seconds > 0.0 && distanceM >= 0.0 ==> r >= 0.0
  {
    if seconds > 0.0 then (distanceM / 1000.0) / (seconds / 3600.0) else 0.0
  }

  /** Minutes per kilometre; 0 unless both the distance and the time are positive. */
  function AvgPace(distanceM: real, seconds: real): (r: real)
    ensures !(distanceM > 0.0 && seconds > 0.0) ==> r == 0.0
    ensures distanceM > 0.0 && seconds > 0.0 ==> r > 0.0 && r * distanceM * 60.0 == seconds * 1000.0
  {
    var distanceKm := distanceM / 1000.0;
    if distanceKm > 0.0 && seconds > 0.0 then (seconds / 60.0) / distanceKm else 0.0
  }

  /** Vertical ascent rate: metres of gain per hour of total duration. */
  function Vam(elevationGain: real, seconds: real): (r: real)
    ensures seconds <= 0.0 ==> r == 0.0
    ensures seconds > 0.0 ==> r * seconds == elevationGain * 3600.0
  {
    var hours := seconds / 3600.0;
    if hours > 0.0 then elevationGain / hours else 0.0
  }

  /** Speed and pace are two views of the same ratio: km/h times min/km is 60. */
  lemma SpeedTimesPace(distanceM: real, seconds: real)
    requires distanceM > 0.0 && seconds > 0.0
    ensures AvgSpeed(distanceM, seconds) * AvgPace(distanceM, seconds) == 60.0
  {
    var v, p := AvgSpeed(distanceM, seconds), AvgPace(distanceM, seconds);
    assert v * seconds == distanceM * 3.6;
    assert p * distanceM * 60.0 == seconds * 1000.0;
    var pd := p * distanceM;
    assert pd * 60.0 == seconds * 1000.0;
    assert pd == seconds * 1000.0 / 60.0;
    calc {
      (v * p) * (seconds * distanceM);
      (v * seconds) * pd;
      (distanceM * 3.6) * (seconds * 1000.0 / 60.0);
      60.0 * (seconds * distanceM);
    }
    assert seconds * distanceM > 0.0;
  }

  /** 10 km in one hour (3 600 000 ms) is 10 km/h and 6 min/km. */
  lemma TenKilometresInAnHour()
    ensures AvgSpeed(10000.0, 3600000.0 / 1000.0) == 10.0
    ensures AvgPace(10000.0, 3600000.0 / 1000.0) == 6.0
  {
  }
}
