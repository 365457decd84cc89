/** The hardware and software sections of the saved file: which times and counts they record. */
module SavedTimes {
  import opened StatsTypes
  import opened CoreSpec
  import opened ComputeFacts

  datatype RadioTimes = RadioTimes(brOn: int, bleOn: int)

  datatype ScreenTimes = ScreenTimes(on: int, brightness: seq<int>)

  datatype WifiUse = WifiUse(on: int, scans: int)

  datatype PhoneTimes = PhoneTimes(cpuIdle: int, radioOn: seq<int>, radioData: seq<int>)

  datatype Hardware = Hardware(radios: RadioTimes, screen: ScreenTimes, wifi: WifiUse, phone: PhoneTimes)

  datatype SensorTimes = SensorTimes(gravity: int, proximity: int)

  datatype LensTimes = LensTimes(camera: int, flashlight: int)

  datatype HoldTimes = HoldTimes(gnss: int, audio: int, wakelock: int)

  datatype CommonUse = CommonUse(lens: LensTimes, hold: HoldTimes, sensors: SensorTimes, alarms: int)

  datatype ScanTimes = ScanTimes(br: int, ble: int)

  /** One uid's object of the software section. */
  datatype Software = Software(uid: int, common: CommonUse, scans: ScanTimes)

  ghost predicate AreLevels(s: State, kind: StatsType, times: seq<int>, n: nat) {
    |times| == n && forall i :: 0 <= i < n ==> times[i] == LevelMs(s, kind, i)
  }

  ghost predicate IsPhone(s: State, p: PhoneTimes) {
    && p.cpuIdle == s.clock.UpMs()
    && AreLevels(s, PhoneActive, p.radioOn, RADIO_SIGNAL_BIN)
    && AreLevels(s, PhoneData, p.radioData, RADIO_SIGNAL_BIN)
  }

  ghost predicate AreRadios(s: State, r: RadioTimes) {
    r.brOn == LevelMs(s, BluetoothBrOn, INVALID_VALUE) && r.bleOn == LevelMs(s, BluetoothBleOn, INVALID_VALUE)
  }

  ghost predicate IsScreen(s: State, t: ScreenTimes) {
    && t.on == LevelMs(s, ScreenOn, INVALID_VALUE)
    && AreLevels(s, ScreenBrightness, t.brightness, SCREEN_BRIGHTNESS_BIN + 1)
  }

  ghost predicate IsWifi(s: State, w: WifiUse) {
    w.on == LevelMs(s, WifiOn, INVALID_VALUE) && w.scans == CountOf(s, WifiScans)
  }

  ghost predicate IsHardware(s: State, h: Hardware) {
    AreRadios(s, h.radios) && IsScreen(s, h.screen) && IsWifi(s, h.wifi) && IsPhone(s, h.phone)
  }

  ghost function UidMs(s: State, uid: int, kind: StatsType): int { TotalMs(s, UidKeys(s, uid, kind)) }

  ghost predicate AreSensors(s: State, uid: int, t: SensorTimes) {
    t.gravity == UidMs(s, uid, SensorGravityOn) && t.proximity == UidMs(s, uid, SensorProximityOn)
  }

  ghost predicate IsLens(s: State, uid: int, t: LensTimes) {
    t.camera == UidMs(s, uid, CameraOn) && t.flashlight == UidMs(s, uid, FlashlightOn)
  }

  ghost predicate IsHold(s: State, uid: int, t: HoldTimes) {
    t.gnss == UidMs(s, uid, GnssOn) && t.audio == UidMs(s, uid, AudioOn) && t.wakelock == UidMs(s, uid, WakelockHold)
  }

  ghost predicate IsCommon(s: State, uid: int, u: CommonUse) {
    && IsLens(s, uid, u.lens) && IsHold(s, uid, u.hold) && AreSensors(s, uid, u.sensors)
    && u.alarms == CountOf(s, Alarms(uid))
  }

  ghost predicate AreScans(s: State, uid: int, t: ScanTimes) {
    t.br == UidMs(s, uid, BluetoothBrScan) && t.ble == UidMs(s, uid, BluetoothBleScan)
  }

  ghost predicate IsSoftware(s: State, w: Software) { IsCommon(s, w.uid, w.common) && AreScans(s, w.uid, w.scans) }

  ghost predicate AreSoftware(s: State, uids: seq<int>, software: seq<Software>) {
    |software| == |uids| && forall i :: 0 <= i < |uids| ==> software[i].uid == uids[i] && IsSoftware(s, software[i])
  }

  /** Reading timers changes no later answer about a level or a uid. */
  lemma SameLevel(s: State, r: State, done: set<TimerKey>, kind: StatsType, level: int)
    requires r.clock == s.clock && r.timers == Refresh(s, done).timers
    ensures LevelKeys(r, kind, level) == LevelKeys(s, kind, level) && LevelMs(r, kind, level) == LevelMs(s, kind, level)
  {
    assert r.timers.Keys == s.timers.Keys;
    TotalAsOf(s, r, done, LevelKeys(s, kind, level));
  }

  lemma SameUid(s: State, r: State, done: set<TimerKey>, uid: int, kind: StatsType)
    requires r.clock == s.clock && r.timers == Refresh(s, done).timers
    ensures UidKeys(r, uid, kind) == UidKeys(s, uid, kind)
    ensures TotalMs(r, UidKeys(r, uid, kind)) == TotalMs(s, UidKeys(s, uid, kind))
  {
    assert r.timers.Keys == s.timers.Keys;
    TotalAsOf(s, r, done, UidKeys(s, uid, kind));
  }
}
