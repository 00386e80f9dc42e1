/** Linger tracking: how long an unlabeled device has been present, and the
    one WARNING per presence streak. */
module Linger {

  /** `_linger_first_seen` (address -> clock in seconds) and `_linger_alerted`. */
  datatype LingerState = LingerState(firstSeen: map<string, int>, alerted: set<string>)

  /** An address is only ever marked alerted while its streak is being timed. */
  predicate Consistent(l: LingerState) {
    l.alerted <= l.firstSeen.Keys
  }

  /** The streak of `mac` has lasted at least `minutes` (elapsed seconds / 60). */
  predicate Due(l: LingerState, mac: string, now: int, minutes: real)
    requires mac in l.firstSeen
  {
    (now - l.firstSeen[mac]) as real / 60.0 >= minutes
  }

  /** Whether `_check_linger` raises its WARNING. */
  predicate Fires(l: LingerState, labeled: bool, mac: string, now: int, minutes: real) {
    !labeled && mac in l.firstSeen && Due(l, mac, now, minutes) && mac !in l.alerted
  }

  /** The state after `_check_linger(mac, ...)`; `labeled` says whether the
      address has a profile with a non-empty label. */
  function Checked(l: LingerState, labeled: bool, mac: string, now: int, minutes: real): (r: LingerState)
    ensures !labeled && mac !in l.firstSeen ==> r.firstSeen == l.firstSeen[mac := now] && r.alerted == l.alerted
    ensures !labeled && mac in l.firstSeen ==> r.firstSeen == l.firstSeen
    ensures !labeled ==> r.alerted == if Fires(l, labeled, mac, now, minutes) then l.alerted + {mac} else l.alerted
    ensures labeled ==> r.firstSeen == l.firstSeen - {mac} && r.alerted == l.alerted - {mac}
    ensures Consistent(l) ==> Consistent(r)
  {
    if !labeled then
      if mac !in l.firstSeen then l.(firstSeen := l.firstSeen[mac := now])
      else if Due(l, mac, now, minutes) && mac !in l.alerted then l.(alerted := l.alerted + {mac})
      else l
    else
      LingerState(l.firstSeen - {mac}, l.alerted - {mac})
  }

  /** The state after the departure of `gone`. */
  function Departed(l: LingerState, gone: set<string>): (r: LingerState)
    ensures r.firstSeen == l.firstSeen - gone && r.alerted == l.alerted - gone
    ensures Consistent(l) ==> Consistent(r)
  {
    LingerState(l.firstSeen - gone, l.alerted - gone)
  }

  /** How many WARNINGs a run of checks of one unlabeled address raises, one
      check per clock reading in `times`. */
  function FiresOver(l: LingerState, mac: string, times: seq<int>, minutes: real): nat
    decreases |times|
  {
    if times == [] then 0
    else
      (if Fires(l, false, mac, times[0], minutes) then 1 else 0)
      + FiresOver(Checked(l, false, mac, times[0], minutes), mac, times[1..], minutes)
  }

  /** While an unlabeled device stays, its linger WARNING fires at most once,
      and not at all once it has fired. */
  lemma {:induction false} LingerFiresAtMostOnce(l: LingerState, mac: string, times: seq<int>, minutes: real)
    ensures FiresOver(l, mac, times, minutes) <= if mac in l.alerted then 0 else 1
    decreases |times|
  {
    if times != [] {
      var l' := Checked(l, false, mac, times[0], minutes);
      LingerFiresAtMostOnce(l', mac, times[1..], minutes);
    }
  }

  /** The first check of an unlabeled address only starts its clock; a later
      check fires exactly when the threshold is reached and it has not fired. */
  lemma FirstCheckOnlyRecords(l: LingerState, mac: string, now: int, later: int, minutes: real)
    requires mac !in l.firstSeen && mac !in l.alerted
    ensures !Fires(l, false, mac, now, minutes)
    ensures var l' := Checked(l, false, mac, now, minutes);
      Fires(l', false, mac, later, minutes) <==> (later - now) as real / 60.0 >= minutes
  {
  }

  /** A labeled device, or a departed one, starts a fresh streak: a later check
      only records the clock again. */
  lemma ResetStartsOver(l: LingerState, mac: string, now: int, minutes: real)
    ensures var r := Checked(l, true, mac, now, minutes);
      !Fires(r, false, mac, now, minutes) && Checked(r, false, mac, now, minutes).firstSeen[mac] == now
    ensures var r := Departed(l, {mac});
      !Fires(r, false, mac, now, minutes) && Checked(r, false, mac, now, minutes).firstSeen[mac] == now
  {
  }
}
