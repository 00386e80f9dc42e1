/** The alert log shared by every detector: a list capped at 200 entries that
    drops its oldest entry when a new one overflows it, and the query that returns
    the newest entries. */
module Alerts {
  import opened Common

  datatype Level = Info | Warning | Critical {
    /** The level name the source writes into alerts and passes to the dispatcher. */
    function Name(): string {
      match this
      case Info => "INFO"
      case Warning => "WARNING"
      case Critical => "CRITICAL"
    }
  }

  /** What an alert reports, with the values its message text interpolates
      (the text itself is not rendered). */
  datatype Event =
    | HomeStarted
    | NoDatabases
    | RoamStarted(hours: int)
    | NoRecentDatabases
    | NextRoamScan(interval: int)
    | DoorbellStarted
    | WatchlistEmpty
    | WatchlistMonitoring(count: nat)
    | CrossMode(name: string, mac: string)
    | Lingering(elapsedSeconds: int, mac: string, ssid: string, signal: Option<int>)
    | WatchlistDetected(name: string, mac: string, signal: Option<int>)
    | ApproachingDevice(name: string, mac: string, signal: Option<int>)
    | Arrival(deviceLabel: string, mac: string)
    | WatchlistArrived(mac: string, manufacturer: string, signal: Option<int>)
    | UnknownDevice(mac: string, manufacturer: string, signal: Option<int>, streak: int)
    | Departure(name: string)
    | WatchlistSighting(name: string, mac: string, signal: Option<int>, lastSeen: Option<int>)
    | Labeled(mac: string, deviceLabel: string, group: string)
    | WatchlistAdded(mac: string, reason: string)
    | WatchlistRemoved(mac: string)

  /** One entry of the log; the timestamp is the clock reading in seconds. */
  datatype Alert = Alert(level: Level, message: Event, timestamp: int)

  /** Most entries the log keeps. */
  const Capacity: nat := 200

  /** The log after appending one alert: the append, then `pop(0)` when the
      log has grown past Capacity. */
  function Pushed(log: seq<Alert>, a: Alert): (r: seq<Alert>)
    ensures |log| <= Capacity ==> |r| <= Capacity && r == TakeLast(log + [a], Capacity)
    ensures |log| < Capacity ==> r == log + [a]
    ensures |log| == Capacity ==> r == log[1..] + [a]
  {
    var q := log + [a];
    if |q| > Capacity then q[1..] else q
  }

  /** The log after appending the alerts of `batch`, in order. */
  function PushAll(log: seq<Alert>, batch: seq<Alert>): seq<Alert>
    decreases |batch|
  {
    if batch == [] then log
    else Pushed(PushAll(log, batch[..|batch| - 1]), batch[|batch| - 1])
  }

  /** Keeping the newest n, then appending and keeping the newest n again, keeps
      the newest n of the whole. */
  lemma TakeLastAppend(s: seq<Alert>, a: Alert, n: nat)
    requires n > 0
    ensures TakeLast(TakeLast(s, n) + [a], n) == TakeLast(s + [a], n)
  {
    if |s| >= n {
      assert TakeLast(s, n) + [a] == (s + [a])[|s| - n..];
    }
  }

  /** However many alerts are pushed, the log holds exactly the newest Capacity
      of everything pushed, in order. */
  lemma {:induction false} PushAllKeepsNewest(log: seq<Alert>, batch: seq<Alert>)
    requires |log| <= Capacity
    ensures PushAll(log, batch) == TakeLast(log + batch, Capacity)
    ensures |PushAll(log, batch)| <= Capacity
    decreases |batch|
  {
    if batch == [] {
      assert log + batch == log;
    } else {
      var init := batch[..|batch| - 1];
      var a := batch[|batch| - 1];
      PushAllKeepsNewest(log, init);
      TakeLastAppend(log + init, a, Capacity);
      assert log + init + [a] == log + batch;
    }
  }

  /** Pushing Capacity alerts or more evicts everything older, and the survivors
      are the newest Capacity alerts in the order they were pushed (250 pushes
      into an empty log leave the last 200). */
  lemma FloodEvictsOldest(log: seq<Alert>, batch: seq<Alert>)
    requires |log| <= Capacity && |batch| >= Capacity
    ensures PushAll(log, batch) == batch[|batch| - Capacity..]
  {
    PushAllKeepsNewest(log, batch);
    assert (log + batch)[|log + batch| - Capacity..] == batch[|batch| - Capacity..];
  }

  /** The module-level alert queue and its lock-protected operations. */
  class AlertLog {
    var entries: seq<Alert>

    ghost predicate Valid()
      reads this
    {
      |entries| <= Capacity
    }

    constructor ()
      ensures Valid() && entries == []
    {
      entries := [];
    }

    /** `_push_alert`: append, then drop the oldest entry once past Capacity. */
    method Push(level: Level, message: Event, now: int)
      requires Valid()
      modifies this
      ensures Valid()
      ensures entries == Pushed(old(entries), Alert(level, message, now))
    {
      entries := entries + [Alert(level, message, now)];
      if |entries| > Capacity {
        entries := entries[1..];
      }
    }

    /** `get_recent_alerts(limit)`: `entries[-limit:]`. */
    function Recent(limit: int): (r: seq<Alert>)
      reads this
      ensures limit >= 1 ==> |r| == (if limit <= |entries| then limit else |entries|)
      ensures limit >= 1 ==> r == entries[|entries| - |r|..]
      ensures limit == 0 ==> r == entries
      ensures limit < 0 ==> r == entries[(if -limit <= |entries| then -limit else |entries|)..]
    {
      TakeLast(entries, limit)
    }
  }
}
