# SentinelWatch (Chasing-Your-Tail-NG) core, modelled in Dafny

SentinelWatch watches the Wi-Fi devices that a Kismet capture backend reports.
It tries to spot devices that follow their owner around. This project models
its three core components and proves properties of them:

- **The detection engine** (`tail_detector.py`). A registry maps each MAC address
  to a `DeviceProfile`. Each backend row updates it through `_update_profile`.
  Around the registry sit:
  - the global alert queue, capped at 200 entries;
  - the signal-trend classifier;
  - the linger tracker for unknown devices;
  - the one-shot cross-mode (HOME vs ROAM) alarm;
  - the label and watchlist edits and the ranking queries;
  - one step of each of the four modes (HOME, ROAM, DOORBELL, WATCHLIST).
- **The GPS stalker correlator** (`multi_location_tracker.py`). A registry maps
  each MAC address to a `StalkerProfile`. A row counts only near one of the
  user's own GPS checkpoints. A new location is recorded only when it is at
  least 0.5 km from every earlier one. Scores and the ranking are computed
  from the registry.
- **The alert router** (`notifications.py`). Each channel (Resend e-mail,
  Twilio SMS) filters by alert level. The three `notify_*` helpers are gated
  on top of that.

Layout, one module per concept:

| file | module | what it holds |
|---|---|---|
| `common.dfy` | `Common` | `Option`, the order-keeping name union (`AddName`, `MergeNames`), Python slice helpers, ASCII case mapping |
| `ranking.dfy` | `Ranking` | `sorted(..., reverse=True)[:limit]` as an insertion sort with its permutation and ordering proofs |
| `observations.dfy` | `Observations` | backend rows, the parsed device blob, `_extract_ssids`, `lookup_manufacturer`, `_parse_kismet_db` |
| `alerts.dfy` | `Alerts` | the alert queue as class `AlertLog` (`_push_alert`, `get_recent_alerts`) |
| `linger.dfy` | `Linger` | the linger state machine (`_linger_first_seen`, `_linger_alerted`) |
| `profiles.dfy` | `Profiles`, `CrossModeHistory` | `DeviceProfile` and the pure rules that update one profile; replaying profile operations for the cross-mode alarm |
| `engine.dfy` | `Detection` | the detector's state as a value (`Engine`), each operation and mode step as a function, the registry invariant and the queries |
| `detector.dfy` | `Detector` | class `TailDetector`: the same operations as methods that update fields in place, each proved to move the state as the matching `Detection` function says |
| `tracker.dfy` | `Correlation`, `Tracker` | the correlator's rules as functions and lemmas; class `MultiLocationTracker` with its loops |
| `notifications.dfy` | `Notifications` | channel selection, the senders' pre-checks and the `notify_*` gates |

Conventions of the model:

- Time is an integer number of seconds, passed in as `now`. An empty ISO
  timestamp is `None`.
- The great-circle distance is a function parameter `dist`.
- The encounter score and the stalker score are function parameters `score`.
- Each backend file is handed over as the rows its query returned.
- A call from the detector into `notifications.py` is recorded as a
  `NotifyCall` value in the `calls` field. It is recorded only when the module
  could be imported (`notif`).
- A send made by `notifications.py` is a `Call` value. A request that passed
  its pre-checks is a `Request` value. Whether the network delivered it is a
  parameter.

## Model

| member | source | states |
|---|---|---|
| Common.AddName | tail_detector.py:280-281 | Adding a mode tag keeps the old tags first and in order. The result holds exactly the old tags plus the new one when it is non-empty. It adds no duplicate and no empty name. |
| Common.MergeNames | tail_detector.py:273-275 | Merging SSIDs keeps the old list as a prefix. The result holds exactly the old names plus the non-empty new ones. A duplicate-free list without empty names stays so. |
| Common.MergeInto | tail_detector.py:273-275 | The `for s in ...: if s and s not in ...: append` loop computes `MergeNames`. |
| Common.MergeNamesConcat | tail_detector.py:241-247 | Merging one list and then another equals merging their concatenation. Two maps scanned into one list behave as one scan. |
| Common.MergeNamesAbsorbed | tail_detector.py:259-275 | Merging names that are all present already, or empty, changes nothing. A profile just created from the row's SSIDs is therefore not changed by the merge loop. |
| Ranking.SortDesc | tail_detector.py:632 | `sorted(..., reverse=True)`: the result is a permutation of the input, in non-increasing key order. |
| Ranking.TopBy | tail_detector.py:632 | `sorted(...)[:limit]` returns min(limit, n) items. A negative limit is read as Python's slice reads it. The items come in non-increasing key order and form a sub-multiset of the input. Every item left out has a key no higher than every item kept. |
| Observations.ExtractSsids | tail_detector.py:238-250 | The names contain no empty name and no duplicate. A non-empty name is in the result exactly when the scan of the probed and advertised maps reaches it before any raise. The probed map's names come first. The flag is true exactly when the scan raises nowhere: the blob is an object, its `dot11.device` is absent or an object, and every value of both maps is a record. |
| Observations.ProbedFirst | tail_detector.py:241-247 | The de-duplicated probed-map names are a prefix of the de-duplicated names of both maps. |
| Observations.AddMapNames | tail_detector.py:242-247 | The loop over one map's values equals merging that map's names. A map that is absent or not a dict adds nothing. |
| Observations.AddRecordNames | tail_detector.py:244-247 | The loop merges the names of the values up to the first value that is not a record. It reports whether it reached the end. |
| Observations.ExtractSsidsFrom | tail_detector.py:238-250 | The loops of `_extract_ssids` compute `ExtractSsids`. |
| Observations.LookupManufacturer | tail_detector.py:54-76 | The result is never empty. It is "Unknown" exactly when the lower-cased first 8 characters are in no vendor's prefix table, and a vendor name otherwise. |
| Observations.TablesDisjoint | tail_detector.py:54-73 | No address prefix belongs to two vendors, so the order in which the lookup tries the vendor tables cannot matter, as it cannot in a dict. |
| Observations.LookupVendor | tail_detector.py:54-76 | An address whose lower-cased 8-character prefix is in a vendor's table resolves to that vendor, for each of the eight vendors. |
| Observations.LookupIgnoresCaseAndSuffix | tail_detector.py:75-76 | Two addresses whose first 8 characters agree up to letter case get the same vendor, whatever follows. |
| Observations.ParseRow | tail_detector.py:216-233 | A row is skipped exactly when its blob is not JSON, or is JSON but not an object. A kept row copies the address, kind, both times, both coordinates and the strongest signal. Its SSIDs are the blob's extracted names. Its manufacturer is the blob's when non-empty and `lookup_manufacturer(devmac)` otherwise, so it is never empty. |
| Observations.ParseRows | tail_detector.py:216-233 | A file yields at most one observation per row, and every one has clean SSIDs and a non-empty manufacturer. |
| Observations.ParseRowsMembers | tail_detector.py:216-233 | An observation is in the result exactly when some row of the file parses to it. |
| Observations.ParseKismetRows | tail_detector.py:204-236 | The row loop computes `ParseRows`. |
| Alerts.Pushed | tail_detector.py:85-93 | A push onto a log of at most 200 keeps the newest 200 of log + [alert]. Below capacity it is a plain append. At capacity it drops exactly the oldest entry. |
| Alerts.PushAllKeepsNewest | tail_detector.py:85-93 | Any run of pushes onto a log of at most 200 leaves exactly the newest 200 of log + batch, in order. |
| Alerts.FloodEvictsOldest | tail_detector.py:85-93 | 200 or more pushes leave only the last 200 pushed. |
| Alerts.AlertLog.constructor | tail_detector.py:82 | The queue starts empty. |
| Alerts.AlertLog.Push | tail_detector.py:85-93 | `_push_alert` replaces the entries by `Pushed(old entries, alert)` and keeps the log at 200 or fewer. |
| Alerts.AlertLog.Recent | tail_detector.py:95-97 | For limit ≥ 1 the result is the newest min(limit, size) entries in order. For limit 0 it is every entry, as the `[-0:]` slice gives. A negative limit drops that many of the oldest entries. |
| Linger.Checked | tail_detector.py:310-333 | For an unlabeled address not seen before, the check records the clock and raises nothing. For one seen before, the start time is kept, and the address joins the alerted set exactly when the warning fires. A labeled address is removed from both the start map and the alerted set. The alerted set stays within the start map. |
| Linger.Departed | tail_detector.py:546-548 | Departed addresses leave both the start map and the alerted set. Every other address keeps its start time and its alerted mark. |
| Linger.LingerFiresAtMostOnce | tail_detector.py:316-327 | Over any run of checks of one unlabeled address the warning fires at most once. It never fires if the address was already alerted. |
| Linger.FirstCheckOnlyRecords | tail_detector.py:315-321 | The first check of an address never fires. A later check fires exactly when the elapsed minutes reach the threshold. |
| Linger.ResetStartsOver | tail_detector.py:331-333 | After a labeled check or a departure, an address cannot fire. Its next check starts the clock again. |
| Profiles.Recorded | tail_detector.py:276-279 | The new history is the newest 20 of history + [reading], at most 20 long, and ends with the reading. Below 20 it is a plain append. At 20 the oldest reading is dropped. |
| Profiles.UpdatedProfile | tail_detector.py:252-282 | A stored profile receives the in-place edits. A new profile has one encounter, the row's SSIDs and the observed manufacturer (the row's, else the vendor table's). First-seen and last-seen come from the row or the clock. Label, notes, watchlist and cross-mode flags are at their defaults, group "unknown", home and roam counters 0, score 0.0 and trend "unknown". The history holds only the reading, and the mode tags only the mode. |
| Profiles.UpdateExisting | tail_detector.py:268-281 | On a stored profile the update raises the encounter count by exactly 1 and stamps last-seen. It keeps first-seen and every user field. SSIDs and mode tags only grow, keeping their old order. A known manufacturer is kept, and an empty or "Unknown" one is replaced by the observed one. A reading is appended only when present, and the history is then the newest 20. |
| Profiles.Observed | tail_detector.py:268-281 | The in-place edits change only the counter, last-seen, manufacturer, SSIDs, history and mode tags. The manufacturer is filled in only when empty or "Unknown". SSIDs and mode tags gain exactly the new non-empty names. The history gets the reading appended when there is one and is unchanged otherwise. |
| Profiles.Created | tail_detector.py:259-267 | A created profile has the row's address, SSIDs and manufacturer, the given first-seen and last-seen, zero encounters, an empty history and no mode tags. Every other field is at its default. |
| Profiles.DisplayName | tail_detector.py:125-126 | The display name is the label when one is set and the address otherwise. It is empty only for an empty address. |
| Profiles.UpdatedWellFormed | tail_detector.py:259-281 | An update keeps a profile well formed: a history of at most 20, and SSIDs and mode tags without duplicates or empty names. |
| Profiles.TrendOf | tail_detector.py:299-307 | The result is "unknown" exactly when there are fewer than 2 readings. Otherwise, with delta = newest minus the oldest of the last 5, it is "approaching" iff delta > 5, "receding" iff delta < -5, and "stable" otherwise. |
| Profiles.SignalTrend | tail_detector.py:296-298 | An address without a profile has trend "unknown". Otherwise the trend is that of its history. |
| Profiles.CrossModeChecked | tail_detector.py:361-364 | The cross-mode flag ends up set exactly when it was set already or the opposite mode tag is present. No other field changes. |
| Profiles.Labeled | tail_detector.py:606-608 | Only the label, the group and the notes change. The notes are kept when the argument is empty. |
| Profiles.Watchlisted | tail_detector.py:615-617 | Only the watchlist flag (set), the group ("watchlist") and the notes change. The notes become "WATCHLISTED: reason", or are kept when the reason is empty. |
| Profiles.Unwatchlisted | tail_detector.py:623-625 | The watchlist flag is cleared. The group becomes "unknown" only if it was "watchlist". |
| CrossModeHistory.ApplySticky | tail_detector.py:361-364 | No profile operation clears the cross-mode flag. An operation raises the alarm exactly when it turns the flag from false to true. |
| CrossModeHistory.CrossModeAtMostOnce | tail_detector.py:361-369 | Any sequence of updates, cross-mode checks, label and watchlist edits raises the alarm at most once per profile. It never raises it when the flag is already set. |
| CrossModeHistory.RoamThenHome | tail_detector.py:361-369 | A device tagged ROAM and then seen twice at HOME, each sighting followed by a check, raises the alarm exactly once. |
| Detection.Fire | tail_detector.py:336-338 | `fire_alert` pushes exactly one alert onto the queue. It keeps the engine invariant, and nothing else changes. |
| Detection.Notify | tail_detector.py:167-172 | A notification call is recorded exactly when the notifications module is available. |
| Detection.Update | tail_detector.py:252-282 | The registry afterwards holds the updated profile under the address, and the address joins the key order when new. The invariant is kept: keys and order agree without duplicates, profiles are well formed, and the linger state and the queue stay consistent and bounded. Every earlier profile persists and grows. |
| Detection.CrossModeStep | tail_detector.py:361-369 | `_check_cross_mode` stores the checked profile. When the opposite tag is present and the flag was false, it pushes exactly one CRITICAL cross-mode alert and records one dispatch when notifications are on. Otherwise the alerts and calls are unchanged. It keeps the invariant and only grows the state. |
| Detection.LingerStep | tail_detector.py:310-333 | `_check_linger` moves the linger state to `Checked(...)` and leaves the registry unchanged. It pushes one WARNING with the elapsed seconds, and records one linger dispatch when notifications are on, exactly when `Fires` holds. It keeps the invariant. |
| Detection.HomeTouched | tail_detector.py:385-387 | HOME's own edits add exactly one home encounter. They set the score to `score` of the profile with that encounter counted and the trend to `TrendOf` of its history. Nothing else changes, so the profile stays well formed. |
| Detection.HomeRow | tail_detector.py:383-389 | One HOME row keeps the invariant and only grows the state. |
| Detection.HomeRows | tail_detector.py:382-389 | The HOME row loop keeps the invariant and only grows the state. |
| Detection.RunHome | tail_detector.py:374-389 | `run_home_mode` keeps the invariant and only grows the state, including the no-files branch. |
| Detection.RoamTouched | tail_detector.py:436-441 | ROAM's own edits set the score to `score(p)` and the trend to `TrendOf` of its history. They add a roam encounter exactly when the profile has no HOME tag. Nothing else changes. |
| Detection.UpdateKeepsHome | tail_detector.py:435-441 | A ROAM update never adds or removes the HOME tag. |
| Detection.RoamAlerts | tail_detector.py:443-455 | A watchlisted profile pushes one CRITICAL detection alert and records one watchlist-hit call when notifications are on. An approaching profile whose signal (-100 when absent) is above the threshold then pushes one WARNING. Nothing else changes. |
| Detection.RoamRow | tail_detector.py:433-458 | One ROAM row keeps the invariant and only grows the state. |
| Detection.RoamRows | tail_detector.py:432-458 | The ROAM row loop keeps the invariant and only grows the state. |
| Detection.RoamPoisAre | tail_detector.py:431-441 | The addresses a scan collects are exactly the addresses of its rows that had no HOME tag when the scan began. |
| Detection.RoamScan | tail_detector.py:426-465 | One `_scan` keeps the invariant and only grows the state, including the no-files branch. |
| Detection.RoamPois | tail_detector.py:431-441 | The persons of interest after n rows are exactly the addresses of those rows that were not seen at home when the scan began. |
| Detection.Arrived | tail_detector.py:517-536 | A labeled arrival pushes one INFO arrival alert, records an arrival call only when notifications are on and `known_device_arrival_notify` is set, and leaves the streak. An unlabeled one raises its own streak entry by 1, from 0 when absent. If watchlisted, it pushes one CRITICAL and records a watchlist-hit call when notifications are on. Otherwise it pushes one unknown-device alert, WARNING when the new streak is 3 or more and INFO below, and records no call. The registry is unchanged. |
| Detection.DoorbellTouched | tail_detector.py:514-515 | DOORBELL's own edit sets the score to `score(p)` and changes nothing else. |
| Detection.DoorbellVisit | tail_detector.py:512-540 | A recent row keeps the invariant and only grows the state. The streak gains at most this row's address. |
| Detection.DoorbellRow | tail_detector.py:508-540 | A row older than three intervals changes nothing. A recent row adds its address to the present set. The streak's keys stay within the old keys plus the present addresses. |
| Detection.DoorbellRows | tail_detector.py:506-540 | After the loop, the present set is the old set plus exactly the addresses of the recent rows. The invariant is kept. |
| Detection.Depart | tail_detector.py:542-548 | A departure pushes one INFO alert naming the profile's label, or the address when unlabeled. It forgets the address's streak and linger state, and leaves the registry unchanged. |
| Detection.Departures | tail_detector.py:542-548 | After the departure loop, every departed address has left the streak, the start map and the alerted set. The registry is unchanged and the invariant is kept. |
| Detection.StartDoorbell | tail_detector.py:495-500 | Starting DOORBELL sets the mode and pushes one INFO start alert, and nothing else changes. The session begins with an empty present set and an empty streak. |
| Detection.DoorbellIteration | tail_detector.py:503-560 | One DOORBELL iteration keeps the invariant and only grows the state. |
| Detection.ListedIsRegistry | tail_detector.py:630-631 | `devices.values()` lists exactly the stored profiles. |
| Detection.WatchlistOf | tail_detector.py:639-641 | `get_watchlist` returns exactly the stored profiles that are watchlisted or in group "watchlist". |
| Detection.MacsOf | tail_detector.py:575 | `w_macs` holds the address of every watchlisted profile and nothing else. |
| Detection.WatchMacsRegistered | tail_detector.py:575-581 | Every watchlisted address has a profile, so the sweep's lookup cannot fail. |
| Detection.WatchlistRow | tail_detector.py:579-587 | A watchlist row reports a hit exactly when its address is watched. An unwatched row changes nothing. A watched, stored address pushes one CRITICAL sighting alert with the profile's name, the row's signal and the last-seen time, and records one watchlist-hit call when notifications are on. The registry is unchanged. |
| Detection.WatchlistRows | tail_detector.py:577-587 | The `found` set is exactly the watched addresses among the rows. |
| Detection.WatchlistSweep | tail_detector.py:567-587 | `run_watchlist_mode` keeps the invariant and only grows the state, including the empty-watchlist branch. |
| Detection.LabelDevice | tail_detector.py:603-610 | `label_device` stores `Labeled(...)` of the existing profile, or of a new one appended to the registry order. It pushes one INFO alert, changes nothing else, keeps the invariant and only grows the state. |
| Detection.AddToWatchlist | tail_detector.py:612-619 | `add_to_watchlist` stores `Watchlisted(...)` of the existing profile, or of a new one appended to the registry order. It pushes one WARNING alert, changes nothing else, keeps the invariant and only grows the state. |
| Detection.RemoveFromWatchlist | tail_detector.py:621-627 | For an unknown address nothing changes. Otherwise the stored profile becomes `Unwatchlisted` and one INFO alert is pushed. Nothing else changes. |
| Detection.TopVisitors | tail_detector.py:629-632 | The result holds min(limit, number of visitors) profiles, a sub-multiset of the stored HOME visitors. They come in non-increasing score order. No visitor left out scores higher than one returned. |
| Detection.PersonsOfInterest | tail_detector.py:634-637 | The result holds min(limit, number of candidates) profiles, a sub-multiset of the stored profiles with no HOME tag and a roam encounter. They come in non-increasing score order. No candidate left out scores higher than one returned. |
| Detector.AppendReading | tail_detector.py:276-279 | The append-then-truncate code computes `Recorded`. |
| Detector.Observe | tail_detector.py:268-281 | The in-place edits compute `Observed` on the profile found or created. |
| Detector.TailDetector.CalculateSignalTrend | tail_detector.py:296-308 | An address without a profile has trend "unknown". Otherwise the trend is `TrendOf` of its stored history. |
| Detector.TailDetector.constructor | tail_detector.py:153-163 | A new detector has an empty registry, empty linger state, no recorded calls, mode "IDLE" and nothing present. |
| Detector.TailDetector.FireAlert | tail_detector.py:336-338 | `fire_alert` moves the state as `Fire` says. |
| Detector.TailDetector.Notify | tail_detector.py:167-172 | Records a notification call as `Detection.Notify` says. |
| Detector.TailDetector.UpdateProfile | tail_detector.py:252-282 | `_update_profile` moves the state as `Update` says, keeps the invariant and returns the stored profile. |
| Detector.TailDetector.CheckCrossMode | tail_detector.py:361-369 | `_check_cross_mode` moves the state as `CrossModeStep` says. |
| Detector.TailDetector.CheckLinger | tail_detector.py:310-333 | `_check_linger` moves the state as `LingerStep` says. |
| Detector.TailDetector.TouchHome | tail_detector.py:385-387 | Stores `HomeTouched` of the profile. |
| Detector.TailDetector.HomeRow | tail_detector.py:383-389 | One HOME row moves the state as `Detection.HomeRow` says. |
| Detector.TailDetector.HomeRowsLoop | tail_detector.py:382-389 | The HOME row loop moves the state as `HomeRows` says. |
| Detector.TailDetector.RunHomeMode | tail_detector.py:374-389 | `run_home_mode` moves the state as `RunHome` says. |
| Detector.TailDetector.StartRoamMode | tail_detector.py:421-423 | Sets mode "ROAM" and fires the start alert. |
| Detector.TailDetector.TouchRoam | tail_detector.py:436-441 | Stores `RoamTouched` of the profile. Reports whether the address joins the persons of interest, which happens exactly when it has no HOME tag. |
| Detector.TailDetector.RoamAlerts | tail_detector.py:443-455 | Moves the state as `Detection.RoamAlerts` says. |
| Detector.TailDetector.RoamRow | tail_detector.py:433-458 | Moves the state as `Detection.RoamRow` says. Reports a person of interest exactly when the address had no HOME tag. The set of HOME-tagged addresses is unchanged. |
| Detector.TailDetector.RoamRowsLoop | tail_detector.py:431-458 | The ROAM row loop moves the state as `RoamRows` says. It collects the addresses that `RoamPois` defines. |
| Detector.TailDetector.RoamScan | tail_detector.py:426-465 | One `_scan` moves the state and returns the set as `Detection.RoamScan` says. |
| Detector.TailDetector.StartDoorbellMode | tail_detector.py:495-500 | Moves the state as `StartDoorbell` says. |
| Detector.TailDetector.TouchDoorbell | tail_detector.py:514-515 | Stores `DoorbellTouched` of the profile. |
| Detector.TailDetector.Arrive | tail_detector.py:517-536 | The arrival branch moves the state and the streak as `Arrived` says. |
| Detector.TailDetector.DoorbellRow | tail_detector.py:508-540 | One DOORBELL row moves the state, the streak and the present set as `Detection.DoorbellRow` says. |
| Detector.TailDetector.DoorbellVisit | tail_detector.py:512-540 | A recent row moves the state and the streak as `Detection.DoorbellVisit` says. |
| Detector.TailDetector.DoorbellRowsLoop | tail_detector.py:506-540 | The DOORBELL row loop moves the state as `DoorbellRows` says. |
| Detector.TailDetector.DepartOne | tail_detector.py:543-548 | One departure moves the state as `Depart` says. |
| Detector.TailDetector.DeparturesLoop | tail_detector.py:542-548 | Visits each departing address exactly once, in the order returned. Moves the state as `Departures` says. |
| Detector.TailDetector.DoorbellIteration | tail_detector.py:503-560 | One iteration moves the state as `Detection.DoorbellIteration` says. The departed addresses are exactly those present before and absent now, each visited once. |
| Detector.TailDetector.EndDoorbellIteration | tail_detector.py:542-560 | Processes the departures, then records the present set as `present_macs` and as the next iteration's `prev_present`. |
| Detector.TailDetector.WatchlistStep | tail_detector.py:579-587 | One watchlist row moves the state as `WatchlistRow` says and leaves the registry unchanged. |
| Detector.TailDetector.WatchlistRowsLoop | tail_detector.py:577-587 | The sweep's row loop moves the state and `found` as `WatchlistRows` says. |
| Detector.TailDetector.RunWatchlistMode | tail_detector.py:567-587 | `run_watchlist_mode` moves the state as `WatchlistSweep` says. |
| Detector.TailDetector.LabelDevice | tail_detector.py:603-610 | Moves the state as `Detection.LabelDevice` says. |
| Detector.TailDetector.AddToWatchlist | tail_detector.py:612-619 | Moves the state as `Detection.AddToWatchlist` says. |
| Detector.TailDetector.RemoveFromWatchlist | tail_detector.py:621-627 | Moves the state as `Detection.RemoveFromWatchlist` says. |
| Correlation.Nearest | multi_location_tracker.py:250-254 | The result is None exactly when there are no checkpoints. Otherwise it is a checkpoint of minimal distance, and the first such, as `min` picks it. |
| Correlation.FarFrom | multi_location_tracker.py:139-143 | True exactly when every stored location is at least 0.5 km away. |
| Correlation.Placed | multi_location_tracker.py:189-205 | A row is placed at a checkpoint only when its address is not skipped, its position is not (0, 0), and the checkpoint is within 1 km. A row is skipped exactly when one of those fails for every checkpoint. |
| Correlation.RowDetail | multi_location_tracker.py:207-221 | The SSIDs are duplicate-free and non-empty. They are `_extract_ssids`'s names when the blob is an object, and empty otherwise. When the blob scan completes, the manufacturer is the blob's `kismet.device.base.manuf`, defaulting to "Unknown". Whenever the blob is missing, malformed or raises during the scan, it is "Unknown". |
| Correlation.Admitted | multi_location_tracker.py:226-230 | A stored address leaves the registry unchanged. A new one gets a fresh profile with the blob's manufacturer and SSIDs and the row's first and last stamps, and is appended to the order. |
| Correlation.RowStepInv | multi_location_tracker.py:189-246 | One row keeps the invariant: keys and order agree, each location count equals the number of stored locations, every pair of locations is at least 0.5 km apart, and SSIDs are clean. Every existing profile persists and grows. |
| Correlation.RowSkipped | multi_location_tracker.py:189-205 | A row leaves the registry unchanged exactly when it is not placed. |
| Correlation.RowHit | multi_location_tracker.py:226-246 | A placed row raises its profile's hits by exactly 1, stamps last-seen with the row's stamp and merges its SSIDs in order. Exactly when the position is far from every stored one, it appends a location with the row's coordinates, the nearest checkpoint's label, the row's last stamp and its strongest signal. A new address is appended to the order with the blob's manufacturer and the row's first stamp. Every other profile is untouched. |
| Correlation.Hit | multi_location_tracker.py:231-236 | A hit adds exactly 1 to the counter and stamps last-seen. The SSIDs keep their old order and gain exactly the row's non-empty new names. Address, first-seen, manufacturer and locations are unchanged. |
| Correlation.Located | multi_location_tracker.py:238-246 | Recording a location appends it after the stored ones and sets the unique count to the new length. Hits, SSIDs and last-seen are unchanged. |
| Correlation.Counted | multi_location_tracker.py:226-246 | A counted row's address has a profile stamped with the row's last stamp and one more hit than before (1 for a new address). Every other address keeps its profile, and the order only grows. |
| Correlation.Track | multi_location_tracker.py:189-246 | Processing rows never drops a profile. Each new profile belongs to the address of some row not in the skip set. |
| Correlation.TrackDbs | multi_location_tracker.py:171-172 | Processing files never drops a profile. Each new profile belongs to the address of some row of a file that could be read. |
| Correlation.TrackInv | multi_location_tracker.py:189-246 | Any sequence of rows keeps the invariant and only grows the registry. |
| Correlation.TrackDbsInv | multi_location_tracker.py:171-172 | Processing any sequence of backend files keeps the invariant. |
| Correlation.SeparationFromEmpty | multi_location_tracker.py:239-246 | Starting from no profiles, after any files, every later location of an address is at least 0.5 km from every earlier one. The location count equals the number of locations. |
| Correlation.ScoreAll | multi_location_tracker.py:264-267 | Scoring keeps the set of addresses. |
| Correlation.ScoreAllInv | multi_location_tracker.py:256-278 | Scoring keeps the invariant. A profile with fewer than 2 locations scores 0.0. Every field other than the score is unchanged. |
| Correlation.RankedStalkers | multi_location_tracker.py:280-286 | The result holds min(limit, number of candidates) profiles, a sub-multiset of the stored profiles with at least `min_locations` locations. They come in non-increasing score order. No candidate left out scores higher than one returned. |
| Correlation.HomeSkipSet | multi_location_tracker.py:162-169 | The skip set is exactly the addresses whose whitelist entry has a HOME tag. It is empty when the whitelist could not be read. |
| Tracker.ParseDevice | multi_location_tracker.py:207-221 | The SSID loop and the manufacturer lookup compute `RowDetail`. |
| Tracker.MultiLocationTracker.constructor | multi_location_tracker.py:90-95 | A new tracker has no profiles and no checkpoints. |
| Tracker.MultiLocationTracker.AddCheckpoint | multi_location_tracker.py:123-133 | Appends exactly one checkpoint with the given position and the clock. Its label is the given one, or `loc_{n+1}` when none is given. The profiles are unchanged. |
| Tracker.MultiLocationTracker.IsNewLocation | multi_location_tracker.py:135-143 | The result is true for an address without a profile. Otherwise it is false exactly when some stored location is closer than 0.5 km. |
| Tracker.MultiLocationTracker.Place | multi_location_tracker.py:189-205 | The acceptance checks compute `Placed`. |
| Tracker.MultiLocationTracker.Admit | multi_location_tracker.py:226-230 | Creates the profile of a new address as `Admitted` says. |
| Tracker.MultiLocationTracker.Count | multi_location_tracker.py:231-246 | Counts the hit, merges the SSIDs and records a new location as `Counted` says. |
| Tracker.MultiLocationTracker.ProcessRow | multi_location_tracker.py:189-246 | One row moves the registry as `RowStep` says and keeps the invariant. |
| Tracker.MultiLocationTracker.ProcessDb | multi_location_tracker.py:178-248 | `_process_db` moves the registry as `Track` says over the file's rows. A file that could not be read changes nothing. |
| Tracker.MultiLocationTracker.ComputeScores | multi_location_tracker.py:256-278 | `_compute_scores` replaces the profiles by `ScoreAll` of the old ones and keeps the invariant. |
| Tracker.MultiLocationTracker.ScanAndCorrelate | multi_location_tracker.py:152-176 | With no checkpoints it returns [] and changes nothing. Otherwise it processes every file with the HOME skip set, scores, and returns `RankedStalkers(…, 2, 20)`. |
| Notifications.DispatchAlert | notifications.py:111-138 | At most two sends. Each is the e-mail with subject "[level] SentinelWatch Alert" or the SMS with prefix "[level] ", carrying the message. |
| Notifications.DispatchChannels | notifications.py:123-138 | The e-mail is sent exactly when the config loaded, Resend is enabled and the upper-cased level is in its upper-cased `send_on`. The SMS is sent exactly when the same holds for Twilio. When both are sent, the e-mail goes first. |
| Notifications.LevelCaseInsensitive | notifications.py:128-137 | Two levels that agree up to letter case select the same channels. |
| Notifications.DefaultIsCriticalOnly | notifications.py:128 | With no `send_on`, a level is selected exactly when it is "CRITICAL" up to case. |
| Notifications.SendResendEmail | notifications.py:20-45 | No request is made exactly when Resend is disabled or the API key is empty. The result is true exactly when a request was made and delivered. The request carries the subject and the body. |
| Notifications.SendTwilioSms | notifications.py:80-105 | No request is made exactly when Twilio is disabled or any of account SID, auth token, from number or to number is empty. The result is true exactly when a request was made and delivered. |
| Notifications.DispatchedCallsPassChecks | notifications.py:127-138 | An e-mail send that is dispatched reaches Resend exactly when the API key is set. An SMS send that is dispatched reaches Twilio exactly when all four Twilio settings are set. |
| Notifications.NotifyKnownArrival | notifications.py:144-164 | Without a config, or with `known_device_arrival_notify` false, nothing is sent. Every send is the INFO e-mail or SMS of the arrival message. |
| Notifications.ArrivalLevel | notifications.py:153-164 | For any config, the arrival reaches e-mail exactly when the config loaded, the gate is open (default true), Resend is enabled and INFO is in its `send_on`. It reaches SMS exactly under the same rule with Twilio. |
| Notifications.ArrivalSilentByDefault | notifications.py:153-164 | With both channels' `send_on` left at its default, an arrival notification sends nothing. |
| Notifications.LingerMessage | notifications.py:183-190 | The linger message carries the address, minutes and signal, with an empty SSID reported as "(hidden)". |
| Notifications.NotifyUnknownSsidLinger | notifications.py:170-192 | Without a config, or with `unknown_ssid_linger_notify` false, nothing is sent. Every send is the WARNING e-mail or SMS of the linger message. |
| Notifications.LingerLevel | notifications.py:179-192 | For any config, the linger notice reaches e-mail exactly when the config loaded, the gate is open (default true), Resend is enabled and WARNING is in its `send_on`. It reaches SMS exactly under the same rule with Twilio. |
| Notifications.LingerSilentByDefault | notifications.py:179-192 | With both channels' `send_on` left at its default, a linger notification sends nothing. |
| Notifications.WatchlistMessage | notifications.py:207-215 | The watchlist message carries the address and signal, with an empty label reported as "(unlabeled)" and empty notes as "None". |
| Notifications.NotifyWatchlistHit | notifications.py:198-217 | Without a config nothing is sent. Every send is the CRITICAL e-mail or SMS of the watchlist message. |
| Notifications.WatchlistHitLevel | notifications.py:198-217 | For any config, a hit reaches e-mail exactly when the config loaded, Resend is enabled and CRITICAL is in its `send_on`. It reaches SMS exactly under the same rule with Twilio. No flag of the helper gates it. |
| Notifications.WatchlistHitByDefault | notifications.py:207-217 | With default `send_on`, a watchlist hit goes to each channel exactly when that channel is enabled. |

## Left out

- File I/O is not modelled: the whitelist load and save (`_load_whitelist`, `_save_whitelist`), the alert log file, the CSV and JSON export, the tracker's `_load` and `save`, and config loading. A detector and a tracker therefore start empty. A config that fails to load is `None` (`Loaded`), and a whitelist that fails to load is `None` for `HomeSkipSet`.
- The Kismet backend is not modelled: `SecureKismetDB`, its connection check, the SQL queries (including the tracker's `WHERE avg_lat != 0 AND avg_lon != 0`), and file selection by glob and modification time. Each file arrives as the rows its query returned. For the tracker, a file that could not be opened or queried is `None`. A database error inside the detector's parser is not modelled.
- `json.loads` is not modelled. The device blob arrives already parsed (`DeviceColumn`, `Blob`), with "not JSON" and "not an object" as explicit cases.
- `haversine_km` is a parameter, because it is floating-point trigonometry.
- The recency, encounter-score and stalker-score formulas are parameters, because they use floats, `log` and datetime parsing. Only the "fewer than 2 locations scores 0.0" rule is kept.
- `datetime.now()` and ISO timestamps are not modelled. The clock is an integer parameter, and an empty timestamp is `None`. A checkpoint stores the clock reading instead of an ISO string.
- Console, colour and rich-table output are not modelled, and neither are the status line of DOORBELL or the persons-of-interest table of ROAM. The sorting done only for printing is therefore absent too.
- The `while True` loops with `time.sleep` are not modelled. Each mode is one step or one iteration, and the DOORBELL session is passed from one iteration to the next.
- The nested file and row loops of each mode are one loop over the concatenated rows (`Flatten`). The per-file loop is kept only in the tracker (`ProcessDb`).
- Message text, HTML and SMS body formatting are not modelled. Alerts and notifications carry structured values (`Event`, `NotifyCall`, `Message`) that hold the interpolated fields.
- The resend and twilio library calls are not modelled. Whether a request was delivered is a parameter.
- Case mapping is ASCII only (`UpperChar`, `LowerChar`). Python's `str.upper` and `str.lower` also map non-ASCII letters.
- Aliasing of profile objects is not modelled. The source mutates the `DeviceProfile` or `StalkerProfile` it got from the dict. The model writes the changed value back under the same key, which is observably the same because no other reference is kept.
- The `first_seen_this_session` field of `DeviceProfile` is not modelled, because no code reads or writes it.
- Set iteration order in the DOORBELL departure loop is unspecified. `DeparturesLoop` returns the order it chose, and the state is stated in terms of that order.
- Detector.TailDetector.TopVisitors, Detector.TailDetector.PersonsOfInterest, Detector.TailDetector.Watchlist: these read the registry and return the `Detection` functions of the same names. Their properties are stated on those functions.
- Non-string SSID values are not modelled: the probed and advertised SSID values are strings or absent. The source appends any truthy JSON value, such as a number or a list, because `if s and s not in ssids` does not check its type.
- Correlation.Track: a `datetime.fromtimestamp` that raises on an out-of-range stamp (multi_location_tracker.py:223-224) is not modelled. In the source it ends the rest of that file's rows, while the rows before it keep their changes. The model processes every row of a file that could be read, or none when the file is `None`.
- Ranking.SortDesc: the order among profiles with equal scores is not stated. Python's `sorted` is stable.
- Notifications.DispatchAlert: the send results are not returned, as in the source, where `dispatch_alert` returns nothing.
- Thread safety of the alert queue (`_alert_lock`) is not modelled, because the model is sequential.
- web_ui.py and setup_wizard.py are not part of this model. They hold HTTP routes, threads and interactive setup.
