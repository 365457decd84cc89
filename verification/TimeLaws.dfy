/** Exclusion and conservation of charged time, over every run. */
module TimeLaws {
  import opened StatsTypes
  import opened CoreSpec
  import opened CoreFacts
  import opened TraceSpec
  import opened Refinement
  import opened Sums

  // ---- Bounds and growth ----

  lemma {:induction false} ChargeBounded(tr: Trace, k: TimerKey)
    ensures Charge(tr, k) <= OnBatteryBootMs(tr)
  {
    if tr.Then? { ChargeBounded(tr.before, k); }
  }

  /**
   * In every run each timer reads the milliseconds its component was active on battery since the
   * last Reset: never negative, never more than the on-battery boot time.
   */
  lemma ReadingIsCharge(env: Env, tr: Trace, k: TimerKey)
    ensures Reading(Run(env, tr), k) == Charge(tr, k)
    ensures 0 <= Reading(Run(env, tr), k) <= Run(env, tr).clock.BootMs()
  {
    RunAgrees(env, tr);
    ChargeBounded(tr, k);
  }

  lemma StepKeepsKeys(env: Env, s: State, e: Event)
    ensures s.timers.Keys <= Step(env, s, e).timers.Keys
  {
    if e.StateEvent? {
      UpdateStateFacts(s, e.kind, e.state, e.level, e.uid, e.device);
    }
  }

  /** A component that is active has a timer. */
  lemma OnHasTimer(env: Env, tr: Trace, k: TimerKey)
    requires On(tr, k)
    ensures k in Run(env, tr).timers
  {
    RunAgrees(env, tr);
    assert Running(Run(env, tr), k);
  }

  // ---- Sums of charges as integrals over the run ----

  ghost function Rate(tr: Trace, ks: set<TimerKey>, w: TimerKey -> int): int {
    Sum(ks, k => if On(tr, k) then w(k) else 0)
  }

  lemma RateOnly(tr: Trace, ks: set<TimerKey>, w: TimerKey -> int, k0: TimerKey)
    requires k0 in ks && On(tr, k0)
    requires forall k :: k in ks && k != k0 ==> !On(tr, k)
    ensures Rate(tr, ks, w) == w(k0)
  {
    SumOnly(ks, k => if On(tr, k) then w(k) else 0, k0);
  }

  lemma RateNone(tr: Trace, ks: set<TimerKey>, w: TimerKey -> int)
    requires forall k :: k in ks ==> !On(tr, k)
    ensures Rate(tr, ks, w) == 0
  {
    SumZero(ks, k => if On(tr, k) then w(k) else 0);
  }

  /** The time integral, over on-battery milliseconds since the last Reset, of the active weight. */
  ghost function Metered(tr: Trace, ks: set<TimerKey>, w: TimerKey -> int): int {
    if tr.Boot? || tr.last.ResetAll? then 0
    else Metered(tr.before, ks, w)
         + if tr.last.Tick? && OnBattery(tr.before) then tr.last.boot * Rate(tr.before, ks, w) else 0
  }

  /** Bucketing by timer and integrating over time agree. */
  lemma {:induction false} MeteredSum(tr: Trace, ks: set<TimerKey>, w: TimerKey -> int)
    ensures Sum(ks, k => w(k) * Charge(tr, k)) == Metered(tr, ks, w)
  {
    var f := k => w(k) * Charge(tr, k);
    if tr.Boot? || tr.last.ResetAll? {
      SumZero(ks, f);
    } else {
      var p := tr.before;
      MeteredSum(p, ks, w);
      var g := k => w(k) * Charge(p, k);
      var b := if tr.last.Tick? && OnBattery(p) then tr.last.boot else 0;
      var on := k => if On(p, k) then w(k) else 0;
      forall k | k in ks ensures f(k) == g(k) + b * on(k) {
        var now := if On(p, k) then b else 0;
        assert Charge(tr, k) == Charge(p, k) + now;
        assert w(k) * (Charge(p, k) + now) == w(k) * Charge(p, k) + w(k) * now;
        assert w(k) * now == b * on(k);
      }
      SumAddScaled(ks, g, on, f, b);
    }
  }

  // ---- Camera ----

  /**
   * In every reachable state, Resets included: at most one camera timer runs, it belongs to the
   * recorded holder while the camera flag is up, and the flag is up exactly when a holder is recorded.
   */
  lemma {:induction false} CameraExclusive(env: Env, tr: Trace)
    ensures var s := Run(env, tr);
            && (s.cameraOn <==> s.cameraUid >= 0)
            && (forall k :: Running(s, k) && k.CameraTimer? ==> s.cameraOn && k.uid == s.cameraUid)
            && (forall j, k :: Running(s, j) && Running(s, k) && j.CameraTimer? && k.CameraTimer? ==> j == k)
  {
    RunAgrees(env, tr);
    TraceShape(tr);
    var s := Run(env, tr);
    forall k | Running(s, k) && k.CameraTimer? ensures Camera(tr) == Open(k.device, k.uid) {
      assert On(tr, k);
    }
  }

  /** On-battery milliseconds since the last Reset during which uid held an open camera. */
  function HeldMs(tr: Trace, uid: int): nat {
    if tr.Boot? || tr.last.ResetAll? then 0
    else HeldMs(tr.before, uid)
         + if tr.last.Tick? && OnBattery(tr.before) && Camera(tr.before).Open? && Camera(tr.before).uid == uid
           then tr.last.boot else 0
  }

  /** The same, whoever held it. */
  function OpenMs(tr: Trace): nat {
    if tr.Boot? || tr.last.ResetAll? then 0
    else OpenMs(tr.before)
         + if tr.last.Tick? && OnBattery(tr.before) && Camera(tr.before).Open? then tr.last.boot else 0
  }

  ghost function AllCameraKeys(s: State): set<TimerKey> {
    set k | k in s.timers && k.CameraTimer? :: k
  }

  lemma {:induction false} HeldMetered(env: Env, tr: Trace, uid: int, ks: set<TimerKey>, w: TimerKey -> int)
    requires CameraKeys(Run(env, tr), uid) <= ks
    requires forall k :: k in ks ==> k.CameraTimer? && k.uid == uid && w(k) == 1
    ensures Metered(tr, ks, w) == HeldMs(tr, uid)
  {
    if tr.Then? && !tr.last.ResetAll? {
      var p := tr.before;
      StepKeepsKeys(env, Run(env, p), tr.last);
      HeldMetered(env, p, uid, ks, w);
      if Camera(p).Open? && Camera(p).uid == uid {
        var k0 := CameraTimer(Camera(p).device, uid);
        OnHasTimer(env, p, k0);
        RateOnly(p, ks, w, k0);
      } else {
        RateNone(p, ks, w);
      }
    }
  }

  lemma {:induction false} OpenMetered(env: Env, tr: Trace, ks: set<TimerKey>, w: TimerKey -> int)
    requires AllCameraKeys(Run(env, tr)) <= ks
    requires forall k :: k in ks ==> k.CameraTimer? && w(k) == 1
    ensures Metered(tr, ks, w) == OpenMs(tr)
  {
    if tr.Then? && !tr.last.ResetAll? {
      var p := tr.before;
      StepKeepsKeys(env, Run(env, p), tr.last);
      OpenMetered(env, p, ks, w);
      if Camera(p).Open? {
        var k0 := CameraTimer(Camera(p).device, Camera(p).uid);
        OnHasTimer(env, p, k0);
        RateOnly(p, ks, w, k0);
      } else {
        RateNone(p, ks, w);
      }
    }
  }

  lemma TotalFrom(s: State, tr: Trace, ks: set<TimerKey>, w: TimerKey -> int)
    requires forall k :: k in ks ==> w(k) == 1 && Reading(s, k) == Charge(tr, k)
    ensures TotalMs(s, ks) == Metered(tr, ks, w)
  {
    MeteredSum(tr, ks, w);
    SumEqual(ks, k => Reading(s, k), k => w(k) * Charge(tr, k));
  }

  /** A sum of readings is the sum of the unit-weighted charges. */
  lemma TotalIsMetered(env: Env, tr: Trace, ks: set<TimerKey>, w: TimerKey -> int)
    requires forall k :: k in ks ==> w(k) == 1
    ensures TotalMs(Run(env, tr), ks) == Metered(tr, ks, w)
  {
    forall k | k in ks ensures Reading(Run(env, tr), k) == Charge(tr, k) {
      ReadingIsCharge(env, tr, k);
    }
    TotalFrom(Run(env, tr), tr, ks, w);
  }

  /** A uid's camera time, summed over devices, is the time it held the camera open. */
  lemma CameraTimeIsHeld(env: Env, tr: Trace, uid: int)
    ensures TotalMs(Run(env, tr), CameraKeys(Run(env, tr), uid)) == HeldMs(tr, uid)
  {
    var ks, w := CameraKeys(Run(env, tr), uid), (k: TimerKey) => 1;
    TotalIsMetered(env, tr, ks, w);
    HeldMetered(env, tr, uid, ks, w);
  }

  lemma {:induction false} OpenBounded(tr: Trace)
    ensures OpenMs(tr) <= OnBatteryBootMs(tr)
  {
    if tr.Then? { OpenBounded(tr.before); }
  }

  /** All camera time, over every device and uid, fits in the on-battery boot time. */
  lemma {:induction false} CameraTimeBounded(env: Env, tr: Trace)
    ensures var s := Run(env, tr);
            TotalMs(s, AllCameraKeys(s)) == OpenMs(tr) <= s.clock.BootMs()
  {
    var ks, w := AllCameraKeys(Run(env, tr)), (k: TimerKey) => 1;
    TotalIsMetered(env, tr, ks, w);
    OpenMetered(env, tr, ks, w);
    OpenBounded(tr);
    RunAgrees(env, tr);
  }

  // ---- The orphaned camera: what a Reset with the camera open does ----

  ghost predicate Extends(tr: Trace, p: Trace) {
    tr == p || (tr.Then? && Extends(tr.before, p))
  }

  lemma {:induction false} OrphanStays(tr: Trace, p: Trace)
    requires Extends(tr, p) && Camera(p).Orphaned?
    ensures Camera(tr) == Camera(p)
  {
    if tr != p { OrphanStays(tr.before, p); }
  }

  lemma {:induction false} OrphanUncharged(tr: Trace, device: string, uid: int)
    requires Camera(tr).Orphaned?
    ensures Charge(tr, CameraTimer(device, uid)) == 0
  {
    if !tr.last.ResetAll? { OrphanUncharged(tr.before, device, uid); }
  }

  /**
   * After a Reset with the camera open the camera flag never comes down again, no camera timer
   * ever runs again and every camera reading stays 0, whatever events follow.
   */
  lemma {:induction false} OrphanForever(env: Env, p: Trace, tr: Trace)
    requires Camera(p).Open? && Extends(tr, Then(p, ResetAll))
    ensures var s := Run(env, tr);
            && s.cameraOn && s.cameraUid == Camera(p).uid
            && forall k: TimerKey :: k.CameraTimer? ==> !Running(s, k) && Reading(s, k) == 0
  {
    OrphanStays(tr, Then(p, ResetAll));
    RunAgrees(env, tr);
    var s := Run(env, tr);
    forall k: TimerKey | k.CameraTimer? ensures !Running(s, k) && Reading(s, k) == 0 {
      OrphanUncharged(tr, k.device, k.uid);
      assert Running(s, k) == On(tr, k) && Reading(s, k) == Charge(tr, k);
    }
  }

  ghost predicate OpenLater(tr: Trace, p: Trace) {
    Extends(tr, p) && Camera(tr).Open?
  }

  /** After a Reset the camera can be opened again exactly when it was closed at the Reset. */
  lemma ReopenAfterReset(p: Trace)
    ensures (exists tr :: OpenLater(tr, Then(p, ResetAll))) <==> Camera(p).Closed?
  {
    var cleared := Then(p, ResetAll);
    if Camera(p).Closed? {
      var reopened := Then(cleared, StateEvent(CameraOn, Activated, INVALID_VALUE, 0, "0"));
      assert Camera(cleared).Closed? && Extends(cleared, cleared);
      assert OpenLater(reopened, cleared);
    } else {
      forall tr | Extends(tr, cleared) ensures !Camera(tr).Open? {
        OrphanStays(tr, cleared);
      }
    }
  }

  /** No Reset since p. */
  ghost predicate ResetFreeSince(tr: Trace, p: Trace) {
    tr == p || (tr.Then? && !tr.last.ResetAll? && ResetFreeSince(tr.before, p))
  }

  // ---- Brightness ----

  /**
   * In every reachable state at most one brightness timer runs, that of the last valid level,
   * and only while the screen flag is up.
   */
  lemma {:induction false} BrightnessExclusive(env: Env, tr: Trace)
    ensures var s := Run(env, tr);
            forall k :: Running(s, k) && k.BrightnessTimer? ==>
              s.screenOn && k.level == s.level && 0 <= k.level <= SCREEN_BRIGHTNESS_BIN
  {
    RunAgrees(env, tr);
    TraceShape(tr);
    var s := Run(env, tr);
    forall k | Running(s, k) && k.BrightnessTimer? ensures Lit(tr) == k.level >= 0 {
      assert On(tr, k);
    }
  }

  /** On-battery milliseconds since the last Reset during which some brightness was charged. */
  function LitMs(tr: Trace): nat {
    if tr.Boot? || tr.last.ResetAll? then 0
    else LitMs(tr.before)
         + if tr.last.Tick? && OnBattery(tr.before) && Lit(tr.before) >= 0 then tr.last.boot else 0
  }

  /** The integral of the charged brightness level over the same milliseconds. */
  function LitUnits(tr: Trace): int {
    if tr.Boot? || tr.last.ResetAll? then 0
    else LitUnits(tr.before)
         + if tr.last.Tick? && OnBattery(tr.before) && Lit(tr.before) >= 0
           then tr.last.boot * Lit(tr.before) else 0
  }

  lemma {:induction false} LitMetered(env: Env, tr: Trace, ks: set<TimerKey>, one: TimerKey -> int,
                                      level: TimerKey -> int)
    requires BrightnessKeys(Run(env, tr)) <= ks
    requires forall k :: k in ks ==> k.BrightnessTimer? && one(k) == 1 && level(k) == k.level
    ensures Metered(tr, ks, one) == LitMs(tr) && Metered(tr, ks, level) == LitUnits(tr)
  {
    if tr.Then? && !tr.last.ResetAll? {
      var p := tr.before;
      StepKeepsKeys(env, Run(env, p), tr.last);
      LitMetered(env, p, ks, one, level);
      if Lit(p) >= 0 {
        var k0 := BrightnessTimer(Lit(p));
        OnHasTimer(env, p, k0);
        RateOnly(p, ks, one, k0);
        RateOnly(p, ks, level, k0);
      } else {
        RateNone(p, ks, one);
        RateNone(p, ks, level);
      }
    }
  }

  /** The level buckets add up to the lit time, and weighted by level to the brightness integral. */
  lemma {:induction false} BrightnessIsIntegral(env: Env, tr: Trace)
    ensures var s := Run(env, tr);
            TotalMs(s, BrightnessKeys(s)) == LitMs(tr) && BrightnessUnits(s) == LitUnits(tr)
  {
    var s := Run(env, tr);
    var ks, one, level := BrightnessKeys(s), (k: TimerKey) => 1, (k: TimerKey) => Level(k);
    TotalIsMetered(env, tr, ks, one);
    LitMetered(env, tr, ks, one, level);
    MeteredSum(tr, ks, level);
    forall k | k in ks ensures Level(k) * Reading(s, k) == level(k) * Charge(tr, k) {
      ReadingIsCharge(env, tr, k);
    }
    SumEqual(ks, k => Level(k) * Reading(s, k), k => level(k) * Charge(tr, k));
  }

  /** The last Reset, if any, happened with the screen flag down. */
  predicate DarkReset(tr: Trace) {
    tr.Boot? || if tr.last.ResetAll? then !ScreenFlag(tr.before) else DarkReset(tr.before)
  }

  /** On-battery screen-on milliseconds since the last Reset before any brightness was known. */
  function UnknownLevelMs(tr: Trace): nat {
    if tr.Boot? || tr.last.ResetAll? then 0
    else UnknownLevelMs(tr.before)
         + if tr.last.Tick? && OnBattery(tr.before) && ScreenFlag(tr.before) && LastLevel(tr.before) < 0
           then tr.last.boot else 0
  }

  lemma {:induction false} DarkResetShape(tr: Trace)
    requires DarkReset(tr)
    ensures ScreenCharging(tr) == ScreenFlag(tr)
    ensures Lit(tr) == if ScreenFlag(tr) then LastLevel(tr) else INVALID_VALUE
    ensures LitMs(tr) + UnknownLevelMs(tr) == Charge(tr, ScreenTimer)
  {
    if tr.Then? && !tr.last.ResetAll? {
      DarkResetShape(tr.before);
      TraceShape(tr.before);
    }
  }

  /**
   * When the last Reset found the screen off, every on-battery screen-on millisecond is charged to
   * exactly one brightness level from the first valid level on, and to none before.
   */
  lemma ScreenAccounting(env: Env, tr: Trace)
    requires DarkReset(tr)
    ensures var s := Run(env, tr);
            TotalMs(s, BrightnessKeys(s)) + UnknownLevelMs(tr) == Reading(s, ScreenTimer)
  {
    BrightnessIsIntegral(env, tr);
    DarkResetShape(tr);
    ReadingIsCharge(env, tr, ScreenTimer);
  }

  ghost predicate LevelsFitScreen(env: Env, tr: Trace) {
    var s := Run(env, tr);
    TotalMs(s, BrightnessKeys(s)) <= Reading(s, ScreenTimer)
  }

  lemma {:induction false} DarkSince(tr: Trace, p: Trace)
    requires ResetFreeSince(tr, Then(p, ResetAll)) && !ScreenFlag(p)
    ensures DarkReset(tr)
  {
    if tr != Then(p, ResetAll) { DarkSince(tr.before, p); }
  }

  /** Brightness time stays within screen-on time after a Reset exactly when the screen was off at it. */
  lemma LevelsFitAfterReset(env: Env, p: Trace)
    ensures (forall tr :: ResetFreeSince(tr, Then(p, ResetAll)) ==> LevelsFitScreen(env, tr)) <==> !ScreenFlag(p)
  {
    var cleared := Then(p, ResetAll);
    if !ScreenFlag(p) {
      forall tr | ResetFreeSince(tr, cleared) ensures LevelsFitScreen(env, tr) {
        DarkSince(tr, p);
        ScreenAccounting(env, tr);
      }
    } else {
      var plugged := Then(cleared, Plug(true));
      var lit := Then(plugged, StateEvent(ScreenBrightness, Activated, 5, INVALID_VALUE, ""));
      var later := Then(lit, Tick(1, 1));
      assert ScreenFlag(cleared) && ScreenFlag(plugged) && Lit(lit) == 5 && OnBattery(plugged) && OnBattery(lit);
      assert !ScreenCharging(cleared) && !ScreenCharging(plugged) && !ScreenCharging(lit);
      assert Charge(cleared, ScreenTimer) == 0 && Charge(plugged, ScreenTimer) == 0 && Charge(lit, ScreenTimer) == 0;
      assert Charge(later, ScreenTimer) == 0 && LitMs(later) >= 1;
      BrightnessIsIntegral(env, later);
      ReadingIsCharge(env, later, ScreenTimer);
      assert ResetFreeSince(plugged, cleared) && ResetFreeSince(lit, cleared) && ResetFreeSince(later, cleared);
      assert !LevelsFitScreen(env, later);
    }
  }

  // ---- Flashlight ----

  predicate IsTorch(e: Event) {
    e.StateEvent? && e.kind == FlashlightOn
  }

  /** No direct torch event since the last Reset, whatever that Reset found. */
  predicate TorchFree(tr: Trace) {
    tr.Boot? || tr.last.ResetAll? || (!IsTorch(tr.last) && TorchFree(tr.before))
  }

  lemma {:induction false} FlashHolder(tr: Trace, uid: int)
    requires TorchFree(tr)
    ensures On(tr, UidTimer(Flashlight, uid)) ==> !Camera(tr).Closed? && Camera(tr).uid == uid
  {
    if tr.Then? && !tr.last.ResetAll? { FlashHolder(tr.before, uid); }
  }

  /**
   * With no torch event since the last Reset, a running flashlight belongs to the recorded camera
   * holder while the camera flag is up, be the camera open or orphaned.
   */
  lemma {:induction false} FlashFollowsCamera(env: Env, tr: Trace, uid: int)
    requires TorchFree(tr)
    ensures var s := Run(env, tr);
            Running(s, UidTimer(Flashlight, uid)) ==> s.cameraOn && s.cameraUid == uid
  {
    FlashHolder(tr, uid);
    RunAgrees(env, tr);
    assert Running(Run(env, tr), UidTimer(Flashlight, uid)) == On(tr, UidTimer(Flashlight, uid));
  }

  /** TorchFree, and the last Reset, if any, found the camera closed. */
  predicate CameraOnlyFlash(tr: Trace) {
    tr.Boot? || if tr.last.ResetAll? then Camera(tr.before).Closed?
                else !IsTorch(tr.last) && CameraOnlyFlash(tr.before)
  }

  lemma {:induction false} FlashShape(tr: Trace, uid: int)
    requires CameraOnlyFlash(tr)
    ensures TorchFree(tr) && !Camera(tr).Orphaned?
    ensures Charge(tr, UidTimer(Flashlight, uid)) <= HeldMs(tr, uid)
  {
    if tr.Then? && !tr.last.ResetAll? {
      FlashShape(tr.before, uid);
      FlashHolder(tr.before, uid);
    }
  }

  /** When that Reset found the camera closed, no uid's flashlight time exceeds its camera time. */
  lemma {:induction false} FlashWithinCamera(env: Env, tr: Trace, uid: int)
    requires CameraOnlyFlash(tr)
    ensures var s := Run(env, tr);
            Reading(s, UidTimer(Flashlight, uid)) <= TotalMs(s, CameraKeys(s, uid))
  {
    FlashShape(tr, uid);
    ReadingIsCharge(env, tr, UidTimer(Flashlight, uid));
    CameraTimeIsHeld(env, tr, uid);
  }

  /** Neither a Reset nor a torch event since p. */
  ghost predicate CalmSince(tr: Trace, p: Trace) {
    tr == p || (tr.Then? && !tr.last.ResetAll? && !IsTorch(tr.last) && CalmSince(tr.before, p))
  }

  lemma {:induction false} CalmShape(tr: Trace, p: Trace)
    requires CalmSince(tr, Then(p, ResetAll)) && Camera(p).Closed?
    ensures CameraOnlyFlash(tr)
  {
    if tr != Then(p, ResetAll) { CalmShape(tr.before, p); }
  }

  ghost predicate FlashFitsCamera(env: Env, tr: Trace) {
    var s := Run(env, tr);
    forall uid :: Reading(s, UidTimer(Flashlight, uid)) <= TotalMs(s, CameraKeys(s, uid))
  }

  /** Flashlight time stays within camera time after a Reset exactly when the camera was closed at it. */
  lemma FlashFitsAfterReset(env: Env, p: Trace)
    ensures (forall tr :: CalmSince(tr, Then(p, ResetAll)) ==> FlashFitsCamera(env, tr)) <==> Camera(p).Closed?
  {
    var cleared := Then(p, ResetAll);
    if Camera(p).Closed? {
      forall tr | CalmSince(tr, cleared) ensures FlashFitsCamera(env, tr) {
        CalmShape(tr, p);
        forall uid ensures Reading(Run(env, tr), UidTimer(Flashlight, uid)) <=
            TotalMs(Run(env, tr), CameraKeys(Run(env, tr), uid)) {
          FlashWithinCamera(env, tr, uid);
        }
      }
    } else {
      var uid := Camera(p).uid;
      var key := UidTimer(Flashlight, uid);
      var plugged := Then(cleared, Plug(true));
      var flash := Then(plugged, StateEvent(CameraFlashlightOn, Activated, INVALID_VALUE, INVALID_VALUE, ""));
      var later := Then(flash, Tick(1, 1));
      assert Camera(cleared) == Camera(plugged) == Camera(flash) == Orphaned(uid);
      assert HeldMs(cleared, uid) == 0 && HeldMs(plugged, uid) == 0 && HeldMs(flash, uid) == 0;
      assert HeldMs(later, uid) == 0;
      assert OnBattery(plugged) && OnBattery(flash) && On(flash, key) && Charge(later, key) >= 1;
      ReadingIsCharge(env, later, key);
      CameraTimeIsHeld(env, later, uid);
      assert CalmSince(plugged, cleared) && CalmSince(flash, cleared) && CalmSince(later, cleared);
      assert !FlashFitsCamera(env, later);
    }
  }
}
