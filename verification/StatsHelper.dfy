/** The on-battery clock, timers and counters: first as values with their meaning, then as the objects. */
module StatsHelperSpec {

  /** StatsHelper's static fields together with the raw boot and up clocks it reads. */
  datatype Clock = Clock(
    boot: int, up: int, onBattery: bool,
    unplugBoot: int, unplugUp: int, accBoot: int, accUp: int)
  {
    function BootMs(): int {
      if onBattery then accBoot + (boot - unplugBoot) else accBoot
    }

    function UpMs(): int {
      if onBattery then accUp + (up - unplugUp) else accUp
    }

    /** Plugging and unplugging move the bookkeeping, never the two on-battery clocks. */
    function SetOnBattery(on: bool): (c: Clock)
      ensures c.onBattery == on
      ensures c.BootMs() == BootMs() && c.UpMs() == UpMs()
      ensures c.boot == boot && c.up == up
    {
      if onBattery == on then this
      else if on then this.(onBattery := true, unplugBoot := boot, unplugUp := up)
      else this.(onBattery := false,
                 accBoot := accBoot + (boot - unplugBoot), accUp := accUp + (up - unplugUp))
    }

    /** Raw time passes; the on-battery clocks see it exactly when the device is unplugged. */
    function Tick(b: nat, u: nat): (c: Clock)
      ensures c.onBattery == onBattery
      ensures c.BootMs() == BootMs() + (if onBattery then b else 0)
      ensures c.UpMs() == UpMs() + (if onBattery then u else 0)
    {
      this.(boot := boot + b, up := up + u)
    }
  }

  /** The fields of an ActiveTimer; Elapsed is what GetRunningTimeMs would answer at `now`. */
  datatype Timer = Timer(running: bool, start: int, total: int) {
    function Elapsed(now: int): int {
      if running then total + (now - start) else total
    }

    function Start(now: int): (t: Timer)
      ensures t.running && t.Elapsed(now) == Elapsed(now)
      ensures running ==> forall later :: t.Elapsed(later) == Elapsed(later)
    {
      if running then this else Timer(true, now, total)
    }

    function Stop(now: int): (t: Timer)
      ensures !t.running && forall later :: t.Elapsed(later) == Elapsed(now)
    {
      if running then Timer(false, start, total + (now - start)) else this
    }

    /** The in-place rebase of GetRunningTimeMs: no later observation can see it. */
    function Rebase(now: int): (t: Timer)
      ensures t.running == running && forall later :: t.Elapsed(later) == Elapsed(later)
      ensures t.total == Elapsed(now)
    {
      if running then Timer(true, now, total + (now - start)) else this
    }

    function Reset(now: int): (t: Timer)
      ensures !t.running && forall later :: t.Elapsed(later) == 0
    {
      Timer(false, now, 0)
    }
  }

  const NEW_TIMER := Timer(false, 0, 0)

  /** Counter::AddCount. */
  function AddCount(total: int, count: int, onBattery: bool): (r: int)
    ensures count > 0 && onBattery ==> r - total == count
    ensures r >= total && (r != total <==> count > 0 && onBattery)
  {
    if count > 0 && onBattery then total + count else total
  }
}

module StatsHelperObjects {
  import opened StatsHelperSpec
  import opened StatsTypes

  class StatsHelper {
    var bootMs: int
    var upMs: int
    var latestUnplugBootTimeMs: int
    var latestUnplugUpTimeMs: int
    var onBatteryBootTimeMs: int
    var onBatteryUpTimeMs: int
    var onBattery: bool

    ghost function View(): Clock
      reads this
    {
      Clock(bootMs, upMs, onBattery,
            latestUnplugBootTimeMs, latestUnplugUpTimeMs, onBatteryBootTimeMs, onBatteryUpTimeMs)
    }

    constructor (boot: int, up: int)
      ensures View() == Clock(boot, up, false, 0, 0, 0, 0)
    {
      bootMs, upMs := boot, up;
      latestUnplugBootTimeMs, latestUnplugUpTimeMs := 0, 0;
      onBatteryBootTimeMs, onBatteryUpTimeMs := 0, 0;
      onBattery := false;
    }

    /** The environment lets raw time pass between two calls. */
    method Tick(b: nat, u: nat)
      modifies this
      ensures View() == old(View()).Tick(b, u)
    {
      bootMs, upMs := bootMs + b, upMs + u;
    }

    method SetOnBattery(on: bool)
      modifies this
      ensures View() == old(View()).SetOnBattery(on)
    {
      if onBattery != on {
        onBattery := on;
        var currentBootTimeMs, currentUpTimeMs := bootMs, upMs;
        if on {
          latestUnplugBootTimeMs := currentBootTimeMs;
          latestUnplugUpTimeMs := currentUpTimeMs;
        } else {
          onBatteryBootTimeMs := onBatteryBootTimeMs + (currentBootTimeMs - latestUnplugBootTimeMs);
          onBatteryUpTimeMs := onBatteryUpTimeMs + (currentUpTimeMs - latestUnplugUpTimeMs);
        }
      }
    }

    method GetOnBatteryBootTimeMs() returns (ms: int)
      ensures ms == View().BootMs()
    {
      ms := onBatteryBootTimeMs;
      if onBattery {
        ms := ms + (bootMs - latestUnplugBootTimeMs);
      }
    }

    method GetOnBatteryUpTimeMs() returns (ms: int)
      ensures ms == View().UpMs()
    {
      ms := onBatteryUpTimeMs;
      if onBattery {
        ms := ms + (upMs - latestUnplugUpTimeMs);
      }
    }
  }

  /** A timer object; `key` says which entity map and which key owns it, so no two keys share one. */
  class ActiveTimer {
    ghost const key: TimerKey
    var isRunning: bool
    var startTimeMs: int
    var totalTimeMs: int

    ghost function View(): Timer
      reads this
    {
      Timer(isRunning, startTimeMs, totalTimeMs)
    }

    constructor (ghost k: TimerKey)
      ensures key == k && View() == NEW_TIMER
    {
      key := k;
      isRunning, startTimeMs, totalTimeMs := false, 0, 0;
    }

    method StartRunning(helper: StatsHelper) returns (started: bool)
      modifies this
      ensures View() == old(View()).Start(helper.View().BootMs())
      ensures started == !old(View()).running
    {
      if isRunning {
        return false;
      }
      startTimeMs := helper.GetOnBatteryBootTimeMs();
      isRunning := true;
      return true;
    }

    method StopRunning(helper: StatsHelper) returns (stopped: bool)
      modifies this
      ensures View() == old(View()).Stop(helper.View().BootMs())
      ensures stopped == old(View()).running
    {
      if !isRunning {
        return false;
      }
      var stopTimeMs := helper.GetOnBatteryBootTimeMs();
      totalTimeMs := totalTimeMs + (stopTimeMs - startTimeMs);
      isRunning := false;
      return true;
    }

    method GetRunningTimeMs(helper: StatsHelper) returns (ms: int)
      modifies this
      ensures View() == old(View()).Rebase(helper.View().BootMs())
      ensures ms == old(View()).Elapsed(helper.View().BootMs())
    {
      if isRunning {
        var tmpStopTimeMs := helper.GetOnBatteryBootTimeMs();
        totalTimeMs := totalTimeMs + (tmpStopTimeMs - startTimeMs);
        startTimeMs := tmpStopTimeMs;
      }
      return totalTimeMs;
    }

    method Reset(helper: StatsHelper)
      modifies this
      ensures View() == old(View()).Reset(helper.View().BootMs())
    {
      isRunning := false;
      startTimeMs := helper.GetOnBatteryBootTimeMs();
      totalTimeMs := 0;
    }
  }
}
