/** Enumerations, constants and plain records of the battery statistics service. */
module StatsTypes {
  const INVALID_VALUE := -1
  const SCREEN_BRIGHTNESS_BIN := 255
  const RADIO_SIGNAL_BIN := 5

  datatype Option<+T> = None | Some(value: T)

  /** StatsUtils::StatsType; CpuTime is any of the three cpu types, OtherType any that nothing below mentions. */
  datatype StatsType =
    | BluetoothBrOn | BluetoothBrScan | BluetoothBleOn | BluetoothBleScan
    | WifiOn | WifiScan | PhoneActive | PhoneData
    | CameraOn | CameraFlashlightOn | FlashlightOn | GnssOn
    | SensorGravityOn | SensorProximityOn | AudioOn
    | ScreenOn | ScreenBrightness | WakelockHold
    | PhoneIdle | CpuSuspend | CpuTime | Alarm | OtherType

  /** StatsUtils::StatsState; the work-scheduler states switch no timer. */
  datatype StatsState = Activated | Deactivated | OtherState

  /** The components that keep one timer for every uid. */
  datatype UidPart = Flashlight | Gnss | Gravity | Proximity | Audio | Wakelock | BrScan | BleScan

  /** Names one timer: the constructor is the entity's timer field, its arguments the key in that map. */
  datatype TimerKey =
    | ScreenTimer
    | BrightnessTimer(level: int)
    | CameraTimer(device: string, uid: int)
    | UidTimer(part: UidPart, uid: int)
    | BrTimer | BleTimer | WifiTimer
    | PhoneOnTimer(level: int)
    | PhoneDataTimer(level: int)

  /** Names one counter: the single wifi scan counter, or the alarm counter of a uid. */
  datatype CounterKey = WifiScans | Alarms(uid: int)

  /** The entries of the power profile (StatsUtils::CURRENT_*). */
  datatype Current =
    | BrOnMa | BleOnMa | BrScanMa | BleScanMa | WifiOnMa | WifiScanMa | RadioOnMa | RadioDataMa
    | CameraMa | FlashlightMa | GnssMa | GravityMa | ProximityMa | AudioMa | WakelockMa
    | ScreenOnMa | ScreenBrightnessMa | CpuIdleMa | CpuSuspendMa | AlarmMa

  /** BatteryStatsParser: scalar currents and per-level currents, absent ones reading as 0. */
  datatype Profile = Profile(average: map<Current, real>, averageVec: map<Current, seq<real>>) {
    function Ma(c: Current): real {
      if c in average then average[c] else 0.0
    }

    function LevelMa(c: Current, level: nat): real {
      if c in averageVec && level < |averageVec[c]| then averageVec[c][level] else 0.0
    }

    ghost predicate NonNegative() {
      && (forall c :: c in average ==> average[c] >= 0.0)
      && (forall c, i :: c in averageVec && 0 <= i < |averageVec[c]| ==> averageVec[c][i] >= 0.0)
    }
  }

  /** What the service asks its environment for: the profile, the account of a uid, the bluetooth uid. */
  datatype Env = Env(profile: Profile, account: int -> int, bluetoothUid: Option<int>)

  // BatteryStatsInfo::ConsumptionType, an int enumeration
  const TYPE_INVALID := -17
  const TYPE_APP := -16
  const TYPE_BLUETOOTH := -15
  const TYPE_IDLE := -14
  const TYPE_PHONE := -13
  const TYPE_SCREEN := -11
  const TYPE_USER := -10
  const TYPE_WIFI := -9

  /** BatteryStatsInfo with its four fields. */
  datatype Info = Info(uid: int, userId: int, kind: int, power: real) {
    function SetUid(u: int): Info {
      if u > INVALID_VALUE then this.(uid := u) else this
    }

    function SetUserId(u: int): Info {
      if u > INVALID_VALUE then this.(userId := u) else this
    }
  }

  const NEW_INFO := Info(INVALID_VALUE, INVALID_VALUE, TYPE_INVALID, 0.0)

  function AppInfo(uid: int, power: real): Info {
    NEW_INFO.(kind := TYPE_APP).SetUid(uid).(power := power)
  }

  function PartInfo(kind: int, power: real): Info {
    NEW_INFO.(kind := kind, power := power)
  }

  function UserInfo(userId: int, power: real): Info {
    NEW_INFO.(kind := TYPE_USER).SetUserId(userId).(power := power)
  }
}
