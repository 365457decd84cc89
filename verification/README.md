# Battery statistics, modelled and proved

This project models the accounting core of the OpenHarmony battery statistics service and proves
what its numbers mean. The service keeps a clock that advances only while the device is unplugged,
measures components with timers against that clock, turns device events into timer starts and
stops, and rolls everything up into milliamp hours per app, per hardware part and in total. Around
that core the project covers the reader of the kernel's cpu counters, the saved power list and the
parcel in which the list is sent to clients.

## How it is built

The core is described three times, and the descriptions are proved to agree.

1. `StatsHelper.dfy` (objects) and `BatteryStatsCore.dfy` hold the service as the source has it:
   timer objects on the heap, maps, flags, loops that read and rewrite timers. Every method is
   proved to take the object's `View()` to what the matching function of `CoreSpec` says.
2. `StatsHelper.dfy` (values) and `CoreSpec.dfy` give that view: a `State`, one function per
   operation, `Step` for one event and `Run` for a whole run. `CoreFacts.dfy` and `ComputeFacts.dfy`
   hold the lemmas that both sides share.
3. `TraceSpec.dfy` says what a run means from its events alone: when the device is on battery, who
   holds the camera, which brightness is lit, how many milliseconds each component is charged. No
   timer, start stamp or map appears there.

`Refinement.dfy` proves, by induction over runs of any length, that 2 agrees with 3. `TimeLaws.dfy`
(exclusion and conservation of time), `Power.dfy` (energy as a time integral), `Rollup.dfy` (totals,
shares, accounts), `EndToEnd.dfy` (what a roll-up publishes) and `Transparency.dfy` (queries change
nothing) build on it. `ByName.dfy` and `TimesByName.dfy` write out what every answer, every saved time
and every entry of the published list must be, component by component: which event type is measured,
which current it is billed with, which levels there are. They use the numbers of the events and the
profile and no table of 1 or 2, so a table that mixed two components up would contradict them.
`Replay.dfy` closes the circle: any run replayed on the objects of 1 reaches the state of 2, so the
laws proved of 3 are laws of the objects' answers. `Unbilled.dfy` shows what is measured but never
billed. `Sums.dfy` has finite sums and the ascending order in which a `std::map`
is walked.

`Numbers.dfy` is `strtoll` and `to_string`; `PowerStore.dfy`, `SavedTimes.dfy` and `SavedRuns.dfy` the
saved file; `Tokeniser.dfy`, `CpuLedger.dfy`, `CpuLines.dfy` and `CpuTimeReader.dfy` the cpu reader;
`Parcel.dfy` the transport. `CpuText.dfy` says what a line of the kernel's files is worth in terms of
the numbers written in it, and `CpuReplay.dfy` gives such lines to the reader object.

Powers are `real`, times and counts are `int`. Every event, query and roll-up is one atomic step
that sees one clock value; raw time passes in `Tick` events, in which boot time and up time advance
by amounts of their own. The account of a uid, the bluetooth service's uid, the power profile and
the cpu power of each roll-up are parameters.

## What the proofs found

- A `Reset` while the camera is open orphans the camera: its flag stays up, no camera timer ever runs
  again and every camera reading stays 0, whatever follows. The camera can be opened again after a
  `Reset` exactly when it was closed at it (`TimeLaws.OrphanForever`, `TimeLaws.ReopenAfterReset`).
- Brightness time stays within screen-on time after a `Reset` exactly when the screen was off at it,
  and flashlight time stays within camera time exactly when the camera was closed at it
  (`TimeLaws.LevelsFitAfterReset`, `TimeLaws.FlashFitsAfterReset`).
- The accounts are added to at every `ComputePower` and cleared only by `Reset`, so they hold the sum
  over all roll-ups since then (`Transparency.UserPowerIsLedger`). A saved list therefore loads back
  in full exactly when the accounts stood at zero before its roll-up (`SavedRuns.RestoredList`). The
  bluetooth BR and BLE accumulators grow in the same way (`Transparency.OnPowerIsLedger`).
- A save restores in full exactly when the roll-ups since the last `Reset` gave no account power
  (`SavedRuns.RestoresIffLedgerEmpty`); two roll-ups of one uid with 1 mAh are enough to break it
  (`SavedRuns.SecondSaveExample`).
- Loading restores the list but not the total, which stays 0; until the next `ComputePower` every
  share is 0 (`Replay.SharesAfterLoad`).
- A refused cluster line has already advanced the clusters before the one that went backwards, and
  their time is never accumulated (`CpuLedger.RefusedLine`, `CpuLedger.LossExample`). No time is lost
  exactly when no refused line climbs before it drops (`CpuLedger.NothingLostIff`), and only then does
  a device that is never plugged accumulate its cluster counters (`CpuLedger.AlwaysOnBatteryIff`).
- A marshalled list counts its null entries but does not write them; the other end fills their number
  with whatever follows in the parcel (`ParcelFormat.ShortListRead`). Its result is that of the last
  entry alone, which is nevertheless true exactly when everything was written
  (`ParcelFormat.ListFitsIff`).
- Alarms without a uid, counted under -1, and the timers of phone level 5 never reach a published
  number (`Unbilled.NeverBilled`).
- The app share is 0 for a negative total while the part share divides by it
  (`BatteryStatsCore.GetAppStatsPercent`, `BatteryStatsCore.GetPartStatsPercent`).
- The repository's README.md:13 calls hardware power what lies beyond software power. The code adds the
  bluetooth service's APP power to the bluetooth part as well, so that uid is in the total twice
  (`EndToEnd.BluetoothCountedTwice`); the model follows the code.

## Model

| member | source | states |
|---|---|---|
| `StatsHelperObjects.StatsHelper.SetOnBattery` | utils/native/src/stats_helper.cpp:60-76 | switching the plug moves the stamps and accumulators as `Clock.SetOnBattery` says, and a repeated switch does nothing |
| `StatsHelperSpec.Clock.SetOnBattery` | utils/native/src/stats_helper.cpp:60-76 | neither on-battery clock jumps at a plug or unplug |
| `StatsHelperSpec.Clock.Tick` | utils/native/src/stats_helper.cpp:96-107 | raw time reaches the on-battery clocks exactly while unplugged |
| `StatsHelperObjects.StatsHelper.GetOnBatteryBootTimeMs` | utils/native/src/stats_helper.cpp:96-107 | answers the on-battery boot clock |
| `StatsHelperObjects.StatsHelper.GetOnBatteryUpTimeMs` | utils/native/src/stats_helper.cpp:109-120 | answers the on-battery up clock |
| `StatsHelperObjects.ActiveTimer.StartRunning` | utils/native/include/stats_helper.h:32-42 | starts a stopped timer, refuses a running one, loses no elapsed time |
| `StatsHelperObjects.ActiveTimer.StopRunning` | utils/native/include/stats_helper.h:44-55 | stops a running timer, refuses a stopped one |
| `StatsHelperObjects.ActiveTimer.GetRunningTimeMs` | utils/native/include/stats_helper.h:57-65 | answers the elapsed time and rebases the timer in place |
| `StatsHelperObjects.ActiveTimer.Reset` | utils/native/include/stats_helper.h:77-82 | a reset timer is stopped and empty |
| `StatsHelperSpec.Timer.Rebase` | utils/native/include/stats_helper.h:57-65 | no later observation can tell that a timer was read |
| `StatsHelperSpec.AddCount` | utils/native/include/stats_helper.h:93-104 | a counter grows by the count exactly for positive counts on battery, and otherwise stays |
| `BatteryStatsCoreObject.BatteryStatsCore.GetOrCreateTimer` | services/native/src/entities/audio_entity.cpp:104-127 | the timer of a key, made fresh when absent; no other timer changes |
| `BatteryStatsCoreObject.BatteryStatsCore.UpdateTimer` | services/native/src/battery_stats_core.cpp:367-421 | starts or stops the one timer an event addresses, or none |
| `BatteryStatsCoreObject.BatteryStatsCore.UpdateCameraTimer` | services/native/src/battery_stats_core.cpp:446-484 | the camera timer, its holder and flag, and the flashlight that goes off with it |
| `BatteryStatsCoreObject.BatteryStatsCore.UpdateCameraStats` | services/native/src/battery_stats_core.cpp:340-365 | the camera and camera-flash events |
| `BatteryStatsCoreObject.BatteryStatsCore.UpdateScreenTimer` | services/native/src/battery_stats_core.cpp:486-512 | screen-on timer, brightness timer and flag together |
| `BatteryStatsCoreObject.BatteryStatsCore.UpdateBrightnessTimer` | services/native/src/battery_stats_core.cpp:514-543 | a change of brightness moves the charge from the old level to the new one |
| `BatteryStatsCoreObject.BatteryStatsCore.UpdateScreenStats` | services/native/src/battery_stats_core.cpp:324-338 | brightness is ignored while the screen flag is down |
| `BatteryStatsCoreObject.BatteryStatsCore.UpdateUidMap` | services/native/src/entities/uid_entity.cpp:40-52 | a non-negative uid is registered once |
| `BatteryStatsCoreObject.BatteryStatsCore.UpdateState` | services/native/src/battery_stats_core.cpp:280-322 | the whole new state after a state event |
| `BatteryStatsCoreObject.BatteryStatsCore.UpdateData` | services/native/src/battery_stats_core.cpp:545-566 | the whole new state after a counting event |
| `BatteryStatsCoreObject.BatteryStatsCore.GetTotalTimeMs` | services/native/src/battery_stats_core.cpp:568-601 | answers the sum of the timers asked for, and only rebases those; which they are is said by `Replay.LevelTimeAnswer` |
| `BatteryStatsCoreObject.BatteryStatsCore.GetUidTimeMs` | services/native/src/battery_stats_core.cpp:649-691 | the same for one uid; camera time is summed over devices, and a cpu type gets the cpu entity's time; `Replay.UidTimeAnswer` says what each type measures |
| `BatteryStatsCoreObject.BatteryStatsCore.GetTotalConsumptionCount` | services/native/src/battery_stats_core.cpp:700-716 | wifi scans whatever the uid, alarms by uid with -1 for those without one, 0 for any other type |
| `BatteryStatsCoreObject.BatteryStatsCore.CameraPower` | services/native/src/entities/camera_entity.cpp:31-64 | camera power of a uid over all its devices |
| `BatteryStatsCoreObject.BatteryStatsCore.AppPower` | services/native/src/entities/uid_entity.cpp:64-140 | the order in which the components are asked gives the uid's whole power; `ByName.AppByName` says what each is |
| `BatteryStatsCoreObject.BatteryStatsCore.CalculateUids` | services/native/src/entities/uid_entity.cpp:121-149 | one pass bills every known uid: map, total, list and accounts |
| `BatteryStatsCoreObject.BatteryStatsCore.CalculateBluetooth` | services/native/src/entities/bluetooth_entity.cpp:51-76 | on-power of both radios plus the bluetooth uid's power; the accumulators grow by the on-powers |
| `BatteryStatsCoreObject.BatteryStatsCore.CalculateIdle` | services/native/src/entities/idle_entity.cpp:48-84 | idle power from the two raw on-battery clocks |
| `BatteryStatsCoreObject.BatteryStatsCore.CalculatePhone` | services/native/src/entities/phone_entity.cpp:97-126 | phone power of levels 0 to 4 of both maps |
| `BatteryStatsCoreObject.BatteryStatsCore.CalculateScreen` | services/native/src/entities/screen_entity.cpp:77-103 | on-power plus the level-weighted brightness power |
| `BatteryStatsCoreObject.BatteryStatsCore.CalculateWifi` | services/native/src/entities/wifi_entity.cpp:33-53 | on-power plus current per scan |
| `BatteryStatsCoreObject.BatteryStatsCore.CalculateUsers` | services/native/src/entities/user_entity.cpp:63-72 | one USER entry per account, ascending, outside the total |
| `BatteryStatsCoreObject.BatteryStatsCore.ComputePower` | services/native/src/battery_stats_core.cpp:146-164 | the whole new state after a roll-up |
| `BatteryStatsCoreObject.BatteryStatsCore.Reset` | services/native/src/battery_stats_core.cpp:1185-1205 | every timer, counter and power is cleared; the camera and screen flags and the known uids stay |
| `BatteryStatsCoreObject.BatteryStatsCore.GetAppStatsMah` | services/native/src/battery_stats_core.cpp:718-732 | answers the first APP entry of the uid, 0 without one |
| `BatteryStatsCoreObject.BatteryStatsCore.GetAppStatsPercent` | services/native/src/battery_stats_core.cpp:734-753 | its share of the total; 0 for a total that is not positive |
| `BatteryStatsCoreObject.BatteryStatsCore.GetPartStatsMah` | services/native/src/battery_stats_core.cpp:755-767 | answers the first entry of the type |
| `BatteryStatsCoreObject.BatteryStatsCore.GetPartStatsPercent` | services/native/src/battery_stats_core.cpp:769-782 | its share of the total; 0 only for a zero total |
| `Replay.Handle` | services/native/src/battery_stats_core.cpp:146-543 | every event, handled by the object, takes its state one `Step` on |
| `Replay.Replay` | services/native/src/battery_stats_core.cpp:146-543 | any run replayed on fresh objects ends in the run's state |
| `Replay.UidTimeAnswer` | services/native/src/battery_stats_core.cpp:649-691 | for every run, uid and type: the answer is the time on battery of the events of that type and uid since the last Reset, the held time for the camera, the torch and flash time for the flashlight, the cpu entity's time for a cpu type, 0 for any other type or a negative uid |
| `Replay.LevelTimeAnswer` | services/native/src/battery_stats_core.cpp:568-601 | the same for a component or one of its levels: signal levels 0 to 5 and brightness 0 to 255, singly or summed, the two on-battery clocks for idle and suspend, 0 for any other type |
| `Replay.CountAnswer` | services/native/src/battery_stats_core.cpp:700-716 | the counts reported on battery since the last Reset, scans over all uids and alarms by uid |
| `Replay.AppPowerMah` | services/native/src/battery_stats_core.cpp:718-732 | after any run and a roll-up a named uid's power is each component's current times that component's own time, plus alarms and cpu; 0 for a uid never named |
| `Replay.PartPowersMah` | services/native/src/battery_stats_core.cpp:755-767 | and each part's power is that of its own events and currents |
| `Replay.SavedSections` | services/native/src/battery_stats_core.cpp:784-1009 | every time and count saved in the hardware and software sections after any run is that of the named events |
| `Replay.SharesAfterLoad` | services/native/src/battery_stats_core.cpp:1092-1141 | after loading any saved object every share is answered with 0 |
| `Refinement.RunAgrees` | services/native/src/battery_stats_core.cpp:280-543 | in every run, timers, counters, flags and known uids are those the events alone give |
| `Refinement.StepAgrees` | services/native/src/battery_stats_core.cpp:280-543 | each event keeps that agreement |
| `Refinement.TraceShape` | services/native/src/battery_stats_core.cpp:340-365 | an open camera has a device and a known holder; the lit level is the last valid one |
| `CoreFacts.UpdateStateFacts` | services/native/src/battery_stats_core.cpp:280-322 | a state event moves switches only: no reading jumps, nothing else changes |
| `TimeLaws.ReadingIsCharge` | utils/native/include/stats_helper.h:32-82 | a timer's answer is the number of milliseconds it was active on battery since the last Reset; never negative, never above the on-battery boot time |
| `TimeLaws.MeteredSum` | services/native/src/entities/screen_entity.cpp:77-103 | summing weighted times by timer equals integrating the active weight over time |
| `TimeLaws.CameraExclusive` | services/native/src/battery_stats_core.cpp:446-484 | at most one camera timer runs, it is the recorded holder's, and the flag is up exactly when a holder is recorded, Resets included |
| `TimeLaws.CameraTimeIsHeld` | services/native/src/entities/camera_entity.cpp:31-46 | a uid's camera time over all devices is the time it held the camera |
| `TimeLaws.CameraTimeBounded` | services/native/src/entities/camera_entity.cpp:31-46 | camera time over all devices and uids is at most the on-battery boot time |
| `TimeLaws.OrphanForever` | services/native/src/battery_stats_core.cpp:1185-1205 | after a Reset with the camera open no camera time is ever counted again |
| `TimeLaws.ReopenAfterReset` | services/native/src/battery_stats_core.cpp:340-365 | the camera can be reopened after a Reset if and only if it was closed at it |
| `TimeLaws.BrightnessExclusive` | services/native/src/battery_stats_core.cpp:514-543 | only the timer of the last level, 0 to 255, can run, and only with the screen flag up |
| `TimeLaws.BrightnessIsIntegral` | services/native/src/entities/screen_entity.cpp:68-75 | the level buckets sum to the lit time, and weighted by level to the brightness integral |
| `TimeLaws.ScreenAccounting` | services/native/src/battery_stats_core.cpp:486-543 | when the last Reset found the screen off, each screen-on millisecond is charged to exactly one level from the first known level on |
| `TimeLaws.LevelsFitAfterReset` | services/native/src/battery_stats_core.cpp:1185-1205 | brightness time stays within screen-on time after a Reset if and only if the screen was off at it |
| `TimeLaws.FlashFollowsCamera` | services/native/src/battery_stats_core.cpp:358-364 | with no torch event since the last Reset, whatever that Reset found, a running flashlight is the recorded camera holder's while the camera flag is up |
| `TimeLaws.FlashWithinCamera` | services/native/src/battery_stats_core.cpp:470-479 | when in addition that Reset found the camera closed, each uid's flashlight time is within its camera time |
| `TimeLaws.FlashFitsAfterReset` | services/native/src/battery_stats_core.cpp:470-479 | the flashlight bound holds after a Reset if and only if the camera was closed at it |
| `Power.AppEnergySplits` | services/native/src/entities/uid_entity.cpp:64-119 | the integral of an app's summed current is the sum of its components' currents times charged time |
| `Power.AppMahIsEnergy` | services/native/src/entities/uid_entity.cpp:64-140 | a uid's APP power is the integral of its active currents on battery since the last Reset, plus its alarms, plus the given cpu power |
| `Power.ScreenMahIsEnergy` | services/native/src/entities/screen_entity.cpp:77-103 | the bucketed screen power equals the time-ordered integral for every interleaving of events |
| `Power.CountIsCounted` | services/native/src/entities/alarm_entity.cpp:33-45 | a counter holds the counts reported on battery since the last Reset |
| `Rollup.RollUpList` | services/native/src/battery_stats_core.cpp:154-161 | the list is APP entries by uid, the five parts, then USER entries; the total is the power of all that are not USER |
| `Rollup.RollUpLookups` | services/native/src/battery_stats_core.cpp:718-767 | the getters find each uid's and each part's power |
| `Rollup.SharesSumToOne` | services/native/src/battery_stats_core.cpp:734-782 | with a positive total all app shares and the five part shares sum to exactly 1 |
| `Rollup.AggregateAdds` | services/native/src/entities/user_entity.cpp:49-61 | each roll-up raises an account by exactly the power of its uids, and creates no other account |
| `Rollup.UsersGrowByApps` | services/native/src/entities/uid_entity.cpp:135-138 | the accounts' sum grows by the APP entries' sum |
| `Rollup.UsersSumToApps` | services/native/src/entities/user_entity.cpp:49-81 | from cleared accounts, USER and APP entries have equal sums |
| `Rollup.BilledOnce` | services/native/src/entities/uid_entity.cpp:127-133 | a roll-up has exactly one APP entry per known uid and none for any other |
| `EndToEnd.PublishedFromTrace` | services/native/src/battery_stats_core.cpp:146-164 | after a roll-up in any run, getters, list and total carry the numbers of the events |
| `EndToEnd.Attribution` | services/native/src/battery_stats_core.cpp:287-289 | every uid that keys a timer or an alarm counter is known, stays known through Reset, and is billed once |
| `EndToEnd.PublishedShares` | services/native/src/battery_stats_core.cpp:734-782 | in every run the shares of a positive total sum to 1 |
| `EndToEnd.SharesBounded` | services/native/src/battery_stats_core.cpp:734-782 | with non-negative currents every share lies in [0, 1] |
| `EndToEnd.PartsAreTraced` | services/native/src/battery_stats_core.cpp:156-160 | the five part powers are those of the events |
| `EndToEnd.BluetoothCountedTwice` | services/native/src/entities/bluetooth_entity.cpp:51-76 | the bluetooth service's whole APP power is in its own entry and again in the bluetooth part |
| `ByName.ActiveIsOn` | services/native/src/battery_stats_core.cpp:367-421 | a plain timer runs in the trace exactly when the last switching event of its own type, level or uid switched it on |
| `ByName.FlashCharge` | services/native/src/battery_stats_core.cpp:340-365 | flashlight time of a uid: its torch events, the flash while it holds the camera, off with its camera |
| `ByName.AppByName` | services/native/src/entities/uid_entity.cpp:64-119 | an app's power is the sum of camera, flashlight, audio, gravity, proximity, gnss, wakelock, BR scan, BLE scan, cpu and alarms, each with its own current and its own events |
| `ByName.BluetoothByName` | services/native/src/entities/bluetooth_entity.cpp:51-76 | the bluetooth part: BR and BLE on-time at their own currents and the service uid's power |
| `ByName.IdleByName` | services/native/src/entities/idle_entity.cpp:48-84 | the idle part: suspend current over boot time and idle current over up time on battery |
| `ByName.PhoneByName` | services/native/src/entities/phone_entity.cpp:97-126 | the phone part: five levels, each with its on-current over PhoneActive time and its data current over PhoneData time |
| `ByName.ScreenByName` | services/native/src/entities/screen_entity.cpp:77-103 | the screen part: on-current over on-time and brightness current times the level for every lit millisecond |
| `ByName.WifiByName` | services/native/src/entities/wifi_entity.cpp:33-53 | the wifi part: on-time at the on-current and scans at the scan current |
| `ByName.PublishedByName` | services/native/src/battery_stats_core.cpp:146-164 | after any run and a roll-up the getters answer these powers under the type numbers -16, -15, -14, -13, -11 and -9 |
| `ByName.ListFromTrace` | services/native/src/battery_stats_core.cpp:146-164 | the whole published list, entry by entry: an APP entry per uid ever named, the five parts, a USER entry per account of such a uid with all it was billed since the last Reset |
| `TimesByName.UidByName` | services/native/src/battery_stats_core.cpp:649-691 | in every run the timers a uid query reads hold the time of the events of the type asked for |
| `TimesByName.LevelByName` | services/native/src/battery_stats_core.cpp:568-601 | the same for the queries by level |
| `Unbilled.NeverBilled` | services/native/src/entities/phone_entity.cpp:97-126 | states that differ only in the level-5 phone timers and in the alarms under -1 publish the same entries, total, uid powers and accounts |
| `Transparency.ReadingsIgnoreQueries` | utils/native/include/stats_helper.h:57-65 | two runs that differ only in queries and roll-ups have the same readings and counts |
| `Transparency.PublishedIgnoresQueries` | services/native/src/battery_stats_core.cpp:568-691 | and publish the same entries and total |
| `Transparency.UserPowerIsLedger` | services/native/src/entities/user_entity.cpp:49-61 | an account holds its uids' power summed over all roll-ups since the last Reset |
| `Transparency.OnPowerIsLedger` | services/native/src/entities/bluetooth_entity.cpp:51-66 | the BR and BLE accumulators hold the on-power of every roll-up since the last Reset, added up |
| `Transparency.FirstRollUpBalances` | services/native/src/entities/user_entity.cpp:49-81 | the first roll-up after a Reset balances accounts and apps |
| `Numbers.StrtollBase10` | utils/native/src/stats_utils.cpp:196-201 | strtoll with base ten as section 7.22.1.4 of ISO/IEC 9899:2018 has it: clamping, ERANGE and the no-number case |
| `Numbers.ParseStrtollResult` | utils/native/src/stats_utils.cpp:196-214 | succeeds with n exactly when the text is blanks, an optional sign and digits of a 64-bit n, whatever follows |
| `Numbers.DenotesOne` | utils/native/src/stats_utils.cpp:196-214 | a text stands for at most one number |
| `Numbers.ToStringParses` | services/native/src/battery_stats_core.cpp:1031-1038 | to_string of every 64-bit integer is parsed back; a wider one is refused |
| `Numbers.ValueOfDigits` | services/native/src/battery_stats_core.cpp:1031-1038 | the decimal digits of n stand for n |
| `Numbers.LeadingDigit` | utils/native/src/stats_utils.cpp:196-201 | a digit counts ten times as much for every digit behind it |
| `Numbers.NoLeadingZero` | services/native/src/battery_stats_core.cpp:1031-1038 | a positive number's text starts with no zero |
| `BatteryStatsCoreObject.BatteryStatsCore.SaveForPower` | services/native/src/battery_stats_core.cpp:1011-1046 | appends one number per entry that is not USER, keyed by uid or type |
| `BatteryStatsCoreObject.BatteryStatsCore.SaveBatteryStatsData` | services/native/src/battery_stats_core.cpp:1048-1065 | rolls up, then saves the list, the hardware times and every uid's times as of the roll-up; the queries on the way only rebase timers |
| `BatteryStatsCoreObject.BatteryStatsCore.SaveForHardware` | services/native/src/battery_stats_core.cpp:784-870 | each time and count of the hardware section is the one the query answers, 256 brightness and 5 signal levels included |
| `BatteryStatsCoreObject.BatteryStatsCore.SaveForSoftware` | services/native/src/battery_stats_core.cpp:872-1009 | one object per known uid, ascending, with each of its nine times under its own name and its alarms |
| `BatteryStatsCoreObject.BatteryStatsCore.UpdateStatsEntity` | services/native/src/battery_stats_core.cpp:1092-1141 | the loaded list for any saved object, bad keys included; the total is left at 0 |
| `PowerStore.SavedByName` | services/native/src/battery_stats_core.cpp:1028-1045 | what is written of an entry: nothing for USER, else its power under a text that denotes the uid of an APP entry or the type of any other |
| `PowerStore.LoadedByName` | services/native/src/battery_stats_core.cpp:1104-1135 | a name that denotes a 64-bit number, cut to 32 bits, gives an APP entry, a part entry or a default entry |
| `PowerStore.SkippedByName` | services/native/src/battery_stats_core.cpp:1104-1113 | a child without a name, without a number, or whose name denotes none, gives no entry |
| `PowerStore.SaveLoad` | services/native/src/battery_stats_core.cpp:1028-1045 | every entry that is not USER comes back with its type, uid, power and place |
| `PowerStore.PublishedReloads` | services/native/src/battery_stats_core.cpp:1100-1140 | a published list comes back as its APP and part entries followed by one USER entry per account with the sum of its apps |
| `PowerStore.FullReloadIff` | services/native/src/battery_stats_core.cpp:1100-1140 | it comes back in full if and only if every account was at zero and owned by a known uid |
| `SavedRuns.AccountsKnown` | services/native/src/entities/user_entity.cpp:49-61 | in every run each account belongs to a known uid |
| `SavedRuns.RestoredList` | services/native/src/battery_stats_core.cpp:1028-1140 | in every run the saved list restores fully if and only if the accounts were at zero before the roll-up |
| `SavedRuns.FirstSaveRestores` | services/native/src/battery_stats_core.cpp:1048-1058 | in particular at the first roll-up since a Reset |
| `SavedRuns.RestoresIffLedgerEmpty` | services/native/src/battery_stats_core.cpp:1028-1140 | said of the events: a save restores in full if and only if the roll-ups since the last Reset gave no account power |
| `SavedRuns.SecondSaveExample` | services/native/src/battery_stats_core.cpp:1028-1140 | a run of two roll-ups whose first save restores and whose second does not |
| `Tokeniser.Split` | services/native/src/cpu_time_reader.cpp:614-623 | terminates and returns the tokens of the line |
| `Tokeniser.TokensMeaning` | services/native/src/cpu_time_reader.cpp:614-623 | tokens are non-empty, hold no delimiter, and together are the line without its delimiters |
| `Tokeniser.SplitWeave` | services/native/src/cpu_time_reader.cpp:614-623 | splitting undoes every way of setting tokens apart |
| `Tokeniser.TokensExactly` | services/native/src/cpu_time_reader.cpp:614-623 | the tokens are exactly the texts of which the line is woven |
| `Tokeniser.SplitJoin` | services/native/src/cpu_time_reader.cpp:614-623 | splitting undoes joining with single delimiters |
| `CpuText.TimeByMeaning` | services/native/src/cpu_time_reader.cpp:172-178 | a row of tokens is worth ten milliseconds for each unit of the 64-bit numbers they denote; any other token is worth nothing |
| `CpuText.ActiveLineByMeaning` | services/native/src/cpu_time_reader.cpp:222-249 | a line whose first token denotes a number is a reading of that number, cut to 32 bits, and that time |
| `CpuText.UnnumberedLine` | services/native/src/cpu_time_reader.cpp:229-232 | one whose first token denotes none is passed over |
| `CpuText.ActiveLineByText` | services/native/src/cpu_time_reader.cpp:167-178 | any 32-bit uid and any 64-bit numbers, written out with any blanks between, give that uid and ten times their sum |
| `CpuText.HeaderByText` | services/native/src/cpu_time_reader.cpp:226-227 | the "cpus" header gives no reading |
| `CpuText.PolicyLineByText` | services/native/src/cpu_time_reader.cpp:254-268 | a line of policy names and core counts appends those counts, cut to 16 bits |
| `CpuText.ClusterLineByText` | services/native/src/cpu_time_reader.cpp:270-287 | numbers in groups of the clusters' sizes, one group after the other, give cluster i ten times the sum of group i, whatever follows the last group |
| `CpuText.TenfoldTotal` | services/native/src/cpu_time_reader.cpp:276-287 | the clusters' times together are ten times the sum of all grouped numbers: none is skipped or taken twice |
| `CpuReplay.ReadActiveText` | services/native/src/cpu_time_reader.cpp:167-249 | the reader object, given a line of numbers, refuses ten times their sum when it is positive and below the last reading, and otherwise stores it and charges the difference on battery |
| `CpuReplay.ReadClusterText` | services/native/src/cpu_time_reader.cpp:270-306 | given a line of grouped numbers, it stores and charges each group's time in its own cluster |
| `CpuReplay.ReadClusterFile` | services/native/src/cpu_time_reader.cpp:308-358 | a file of a policy line and a uid's line: the counts of the one lay out the numbers of the other |
| `CpuTimeReaderObject.CpuTimeReader.ReadUidCpuActiveTimeImpl` | services/native/src/cpu_time_reader.cpp:167-209 | one line's counter against the last one: refused, or charged on battery; what the counter is worth is said by `CpuText.TimeByMeaning` |
| `CpuTimeReaderObject.CpuTimeReader.ReadActiveLine` | services/native/src/cpu_time_reader.cpp:222-250 | the line's uid is registered and its counter read; header and unreadable lines are passed over |
| `CpuTimeReaderObject.CpuTimeReader.ReadUidCpuActiveTime` | services/native/src/cpu_time_reader.cpp:211-252 | takes the readings of a file up to the first refused one and asks nothing of what lies behind it; every uid with counters stays registered |
| `CpuLedger.ActiveLedger` | services/native/src/cpu_time_reader.cpp:180-207 | over any sequence of lines the last reading is the peak, the accumulated time what was gained on battery, and both differ by what was gained while plugged |
| `CpuLedger.RejectedIff` | services/native/src/cpu_time_reader.cpp:182-190 | a line is refused if and only if it shows a positive counter below the peak, and then changes nothing |
| `CpuLedger.AlwaysOnBattery` | services/native/src/cpu_time_reader.cpp:197-207 | a device never plugged accumulates the counter itself |
| `CpuLedger.ReadActivesContinue` | services/native/src/cpu_time_reader.cpp:211-252 | the readings taken from another file continue the run |
| `CpuTimeReaderObject.CpuTimeReader.ReadPolicy` | services/native/src/cpu_time_reader.cpp:254-268 | a policy line adds its core counts to the layout |
| `CpuTimeReaderObject.CpuTimeReader.Advance` | services/native/src/cpu_time_reader.cpp:290-299 | the clusters before the first one that went backwards are advanced, the rest kept |
| `CpuTimeReaderObject.CpuTimeReader.ReadClusterTimeIncrement` | services/native/src/cpu_time_reader.cpp:270-306 | cluster times from the tokens, new last readings, increments when accepted; which tokens make up which cluster is said by `CpuText.ClusterLineByText` |
| `CpuTimeReaderObject.CpuTimeReader.AddIncrementsToClusterTime` | services/native/src/cpu_time_reader.cpp:360-366 | adds the increments cluster by cluster |
| `CpuTimeReaderObject.CpuTimeReader.ReadUidCpuClusterTime` | services/native/src/cpu_time_reader.cpp:308-358 | takes a file's lines up to the first refused one, in the layout its policy lines give, and asks nothing of what lies behind it; every uid with counters stays registered |
| `CpuLedger.FixedLayout` | services/native/src/cpu_time_reader.cpp:341-366 | with a fixed layout vector lengths always match it and no index leaves its vector |
| `CpuLedger.ClusterLedger` | services/native/src/cpu_time_reader.cpp:270-306 | accumulated plus skipped while plugged plus lost on refused lines is the last reading, for every uid and cluster over any sequence of lines the source can index, fixed layout or not |
| `CpuLedger.AcceptedLine` | services/native/src/cpu_time_reader.cpp:288-304 | an accepted line sets each cluster's last reading to its counter, on battery adds the difference to the accumulated time, and touches no other uid |
| `CpuLedger.LastIsShown` | services/native/src/cpu_time_reader.cpp:288-304 | while every line is accepted a last reading is the counter shown last |
| `CpuLedger.RefusedLine` | services/native/src/cpu_time_reader.cpp:290-299 | exactly which clusters a refused line advances |
| `CpuLedger.LineKeepsAllIff` | services/native/src/cpu_time_reader.cpp:290-304 | a line on battery accumulates all it moves if and only if it is accepted or no cluster climbs before the first that drops |
| `CpuLedger.NothingLostIff` | services/native/src/cpu_time_reader.cpp:341-355 | a run loses no time for any uid and cluster if and only if no line of it does, each judged before it is read |
| `CpuLedger.AlwaysOnBatteryIff` | services/native/src/cpu_time_reader.cpp:341-355 | a device never plugged accumulates every cluster counter itself if and only if no refused line climbed before it dropped |
| `CpuLedger.LastClimbs` | services/native/src/cpu_time_reader.cpp:290-299 | no line lowers a last reading |
| `CpuLedger.LossExample` | services/native/src/cpu_time_reader.cpp:290-299 | three lines on battery after which 30 ms are lost for good |
| `CpuLedger.ReadLinesContinue` | services/native/src/cpu_time_reader.cpp:308-358 | the lines taken from another file continue the run, so the ledger spans files |
| `CpuLines.TakenIndexable` | services/native/src/cpu_time_reader.cpp:308-358 | the lines a file gives are always such a continuation |
| `ParcelFormat.WireFormat` | frameworks/native/src/battery_stats_info.cpp:213-225 | on the wire: the number of entries with nulls counted, then uid, type and power of each that is not null |
| `ParcelObjects.Marshalling` | frameworks/native/src/battery_stats_info.cpp:24-31 | writes uid, type and power, stopping with false at the first that does not fit |
| `ParcelObjects.ReadFromParcel` | frameworks/native/src/battery_stats_info.cpp:47-56 | reads them back; after a failed read the fields read so far stay set |
| `ParcelObjects.MarshallingList` | frameworks/native/src/battery_stats_info.cpp:213-225 | writes the size with nulls counted, then the non-null entries; true exactly when the parcel has room for all of it, and then all of it is written |
| `ParcelFormat.ListFitsIff` | frameworks/native/src/battery_stats_info.cpp:217-224 | the result of the last entry, which overwrites the others, is true if and only if the whole list fits |
| `ParcelObjects.UnmarshallingList` | frameworks/native/src/battery_stats_info.cpp:227-245 | refuses a size outside 0..2000, else reads that many entries whether or not each read succeeds |
| `ParcelFormat.ListRoundTrip` | frameworks/native/src/battery_stats_info.cpp:213-245 | what a list of any length reads back as, wherever it stands in a parcel: refused when its 32-bit size is not in 0..2000, else that many entries, the non-null ones first |
| `ParcelFormat.LongListRefused` | frameworks/native/src/battery_stats_info.cpp:227-236 | of the lists whose size does not wrap exactly those of more than 2000 entries are refused |
| `ParcelFormat.ShortListRead` | frameworks/native/src/battery_stats_info.cpp:238-242 | a list of at most 2000 entries: the non-null ones, then as many entries as there were nulls, made of whatever follows |
| `ParcelFormat.WholeRoundTrip` | frameworks/native/src/battery_stats_info.cpp:24-56 | a list without nulls comes back entry by entry with the account at -1, consuming exactly what was written |
| `ParcelFormat.NullsBecomeDefaults` | frameworks/native/src/battery_stats_info.cpp:213-245 | with nothing behind the list its nulls come back as default entries at the end |

## Left out

- BatteryStatsCoreObject.BatteryStatsCore.GetOrCreateTimer: the entities' separate timer fields and maps are one map here, whose key's constructor names the entity; that each entity has a class of its own is not captured.
- BatteryStatsCoreObject.BatteryStatsCore.UpdateData: a counter is an integer in a map, not an object of its own; no two counters can share one in the source either.
- BatteryStatsCoreObject.BatteryStatsCore.AppPower: the per-entity power maps, which each roll-up overwrites and the detailed power getters read, are not kept; the powers flow straight into the app's sum.
- BatteryStatsCoreObject.BatteryStatsCore.Reset: the order of the entities and of the keys in their maps is not captured; counters and powers are cleared by one assignment per map.
- BatteryStatsCoreObject.BatteryStatsCore.GetUidTimeMs: the time the cpu entity holds for a uid is a parameter, as is its power.
- BatteryStatsCoreObject.BatteryStatsCore.SaveForPower: the JSON text and file are not modelled; members are an ordered list of names and exact numbers.
- BatteryStatsCoreObject.BatteryStatsCore.SaveForSoftware: each saved time is a named field of a record; the JSON names of the members are left out.
- ParcelObjects.Parcel.Write: Parcel itself is not part of this model; a write is taken to fail exactly when it would pass a capacity in bytes, and cells carry whole values, so that bytes read as another type do not occur.
- CpuLines.TimeMs: no 64-bit overflow when a counter is multiplied by ten.
- CpuTimeReaderObject.CpuTimeReader.ReadUidCpuClusterTime: a line, up to the first refused one, that lacks the tokens the reader indexes, or whose comparison or addition would run past a stored vector, is outside the precondition, as the source has no defined behaviour there.
- Widths of integers: times, counts, uids, levels and the 16-bit indices over the tokens of a line are unbounded, except where a cast to 32 or 16 bits or the 64-bit range of parsing is part of the behaviour.
- clustersMap_, which nothing reads.
- Floating point: powers are exact reals, so sums do not depend on order.
- Threads, mutexes and several clock reads within one event: each event is one step.
- Failures of clock_gettime, allocation, files and the JSON library.
- CPU frequency times, the per-uid user and system times and the powers computed from cpu times: the cpu power of each uid is given to ComputePower.
- AddRunningTimeMs and the duration overload of UpdateTimer: nothing reaches them.
- The wakelock halving branches: their counter is never raised.
- Event listeners, detectors, dump texts, name conversions, IPC, permissions, bindings and timers against hangs.
