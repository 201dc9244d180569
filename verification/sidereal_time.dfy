/**
  The observation start-time rule of the campaign script.

  Time is measured in real seconds since the fixed reference instant,
  2000-01-01 00:00:00 UTC at longitude 116.764 degrees east, latitude 0.
  The apparent local sidereal time at that instant comes from an
  astronomy library and enters here as the opaque input `lstHours`.
  Like the script, the model adds sidereal hours as if they were
  ordinary hours.
 */
module SiderealTime {

  /** The reference instant on the model's time axis. */
  const ReferenceSec: real := 0.0

  const SecondsPerHour: real := 3600.0

  /** The sky turns 15 degrees of right ascension per sidereal hour. */
  const DegreesPerHour: real := 15.0

  const HoursPerDay: real := 24.0

  /** Hour angle, in hours, of right ascension `raDeg` once `hours` have
      passed since the reference instant: local sidereal time minus RA. */
  function HourAngle(lstHours: real, hours: real, raDeg: real): real
  {
    lstHours + hours - raDeg / DegreesPerHour
  }

  /** Hours after the reference instant at which `raDeg` crosses the
      meridian: one day after the crossing that lies `raDeg / 15 - lstHours`
      hours from the reference instant. */
  function HoursToTransit(lstHours: real, raDeg: real): (dt: real)
    ensures HourAngle(lstHours, dt, raDeg) == HoursPerDay
  {
    HoursPerDay - lstHours + raDeg / DegreesPerHour
  }

  /** The transit instant, in seconds since the reference instant. */
  function TransitSec(lstHours: real, raDeg: real): real
  {
    ReferenceSec + HoursToTransit(lstHours, raDeg) * SecondsPerHour
  }

  /** Start of an observation of `lengthSec` seconds on the field at
      `raDeg`: the window is centred on the transit, and for a window of
      non-negative length the transit lies inside it. */
  function StartTime(lstHours: real, raDeg: real, lengthSec: real): (start: real)
    ensures start + lengthSec / 2.0 == TransitSec(lstHours, raDeg)
    ensures 0.0 <= lengthSec ==> start <= TransitSec(lstHours, raDeg) <= start + lengthSec
  {
    ReferenceSec + (HoursToTransit(lstHours, raDeg) * SecondsPerHour - lengthSec / 2.0)
  }

  /** The midpoint of the window does not depend on its length. */
  lemma MidpointIndependentOfLength(lstHours: real, raDeg: real, len1: real, len2: real)
    ensures StartTime(lstHours, raDeg, len1) + len1 / 2.0 == StartTime(lstHours, raDeg, len2) + len2 / 2.0
  {
  }

  /** One hour of right ascension later, the start moves one hour later. */
  lemma StartTimeRaShift(lstHours: real, raDeg: real, lengthSec: real)
    ensures StartTime(lstHours, raDeg + DegreesPerHour, lengthSec) == StartTime(lstHours, raDeg, lengthSec) + SecondsPerHour
  {
  }

  /** A window longer by `d` seconds starts `d / 2` seconds earlier. */
  lemma StartTimeLengthShift(lstHours: real, raDeg: real, lengthSec: real, d: real)
    ensures StartTime(lstHours, raDeg, lengthSec + d) == StartTime(lstHours, raDeg, lengthSec) - d / 2.0
  {
  }
}
