/** Power as energy: what is billed is the time integral of the currents active on battery. */
module Power {
  import opened StatsTypes
  import opened CoreSpec
  import opened TraceSpec
  import opened Refinement
  import opened TimeLaws

  // ---- Energy as a time integral of the active currents ----

  function Flow(active: bool, ma: real): real {
    if active then ma else 0.0
  }

  /** A current of ma drawn for ms milliseconds. */
  function Draw(ma: real, ms: nat): real {
    if ms == 0 then 0.0 else Draw(ma, ms - 1) + ma
  }

  lemma {:induction false} DrawIsProduct(ma: real, ms: nat)
    ensures Draw(ma, ms) == ma * (ms as real)
  {
    if ms > 0 {
      DrawIsProduct(ma, ms - 1);
      assert ma * ((ms - 1) as real + 1.0) == ma * ((ms - 1) as real) + ma;
    }
  }

  lemma {:induction false} DrawLonger(ma: real, a: nat, b: nat)
    ensures Draw(ma, a + b) == Draw(ma, a) + Draw(ma, b)
  {
    if b > 0 { DrawLonger(ma, a, b - 1); }
  }

  lemma {:induction false} DrawMore(x: real, y: real, ms: nat)
    ensures Draw(x + y, ms) == Draw(x, ms) + Draw(y, ms)
  {
    if ms > 0 { DrawMore(x, y, ms - 1); }
  }

  lemma {:induction false} DrawNothing(ms: nat)
    ensures Draw(0.0, ms) == 0.0
  {
    if ms > 0 { DrawNothing(ms - 1); }
  }

  function PartFlow(env: Env, tr: Trace, part: UidPart, uid: int): real {
    Flow(On(tr, UidTimer(part, uid)), env.profile.Ma(PartMa(part)))
  }

  function PartsRate(env: Env, tr: Trace, uid: int, n: nat): real
    requires n <= |PARTS|
  {
    if n == 0 then 0.0 else PartsRate(env, tr, uid, n - 1) + PartFlow(env, tr, PARTS[n - 1], uid)
  }

  /** The current drawn for uid at this moment: camera and per-uid components. */
  function AppRate(env: Env, tr: Trace, uid: int): real {
    Flow(Camera(tr).Open? && Camera(tr).uid == uid, env.profile.Ma(CameraMa)) + PartsRate(env, tr, uid, |PARTS|)
  }

  /** Milliamp-milliseconds drawn for uid on battery since the last Reset. */
  function AppEnergy(env: Env, tr: Trace, uid: int): real {
    if tr.Boot? || tr.last.ResetAll? then 0.0
    else AppEnergy(env, tr.before, uid)
         + if tr.last.Tick? && OnBattery(tr.before) then Draw(AppRate(env, tr.before, uid), tr.last.boot) else 0.0
  }

  /** The current the screen draws at this moment: on-current, plus brightness current per level. */
  function ScreenRate(env: Env, tr: Trace): real {
    Flow(ScreenCharging(tr), env.profile.Ma(ScreenOnMa))
    + if Lit(tr) >= 0 then Draw(env.profile.Ma(ScreenBrightnessMa), Lit(tr)) else 0.0
  }

  function ScreenEnergy(env: Env, tr: Trace): real {
    if tr.Boot? || tr.last.ResetAll? then 0.0
    else ScreenEnergy(env, tr.before)
         + if tr.last.Tick? && OnBattery(tr.before) then Draw(ScreenRate(env, tr.before), tr.last.boot) else 0.0
  }

  lemma DrawGrows(ma: real, ms: nat, b: nat, active: bool)
    ensures Draw(ma, ms + if active then b else 0) == Draw(ma, ms) + Draw(Flow(active, ma), b)
  {
    DrawLonger(ma, ms, b);
    DrawNothing(b);
  }

  function PartDraw(env: Env, tr: Trace, part: UidPart, uid: int): real {
    Draw(env.profile.Ma(PartMa(part)), Charge(tr, UidTimer(part, uid)))
  }

  /** One on-battery tick adds the part's current, when it is active, for the length of the tick. */
  lemma PartGrows(env: Env, tr: Trace, part: UidPart, uid: int)
    requires tr.Then? && tr.last.Tick? && OnBattery(tr.before)
    ensures PartDraw(env, tr, part, uid) ==
            PartDraw(env, tr.before, part, uid)
            + Draw(PartFlow(env, tr.before, part, uid), tr.last.boot)
  {
    var k := UidTimer(part, uid);
    DrawGrows(env.profile.Ma(PartMa(part)), Charge(tr.before, k), tr.last.boot, On(tr.before, k));
  }

  function PartsDraw(env: Env, tr: Trace, uid: int, n: nat): real
    requires n <= |PARTS|
  {
    if n == 0 then 0.0 else PartsDraw(env, tr, uid, n - 1) + PartDraw(env, tr, PARTS[n - 1], uid)
  }

  lemma {:induction false} PartsGrow(env: Env, tr: Trace, uid: int, n: nat)
    requires n <= |PARTS| && tr.Then? && tr.last.Tick? && OnBattery(tr.before)
    ensures PartsDraw(env, tr, uid, n) ==
            PartsDraw(env, tr.before, uid, n) + Draw(PartsRate(env, tr.before, uid, n), tr.last.boot)
  {
    if n == 0 {
      DrawNothing(tr.last.boot);
    } else {
      PartsGrow(env, tr, uid, n - 1);
      PartGrows(env, tr, PARTS[n - 1], uid);
      DrawMore(PartsRate(env, tr.before, uid, n - 1), PartFlow(env, tr.before, PARTS[n - 1], uid), tr.last.boot);
    }
  }

  lemma {:induction false} PartsStay(env: Env, tr: Trace, uid: int, n: nat)
    requires n <= |PARTS| && tr.Then? && !tr.last.ResetAll? && !(tr.last.Tick? && OnBattery(tr.before))
    ensures PartsDraw(env, tr, uid, n) == PartsDraw(env, tr.before, uid, n)
  {
    if n > 0 { PartsStay(env, tr, uid, n - 1); }
  }

  lemma {:induction false} PartsDrawNothing(env: Env, tr: Trace, uid: int, n: nat)
    requires n <= |PARTS| && (tr.Boot? || tr.last.ResetAll?)
    ensures PartsDraw(env, tr, uid, n) == 0.0
  {
    if n > 0 { PartsDrawNothing(env, tr, uid, n - 1); }
  }

  /** The integral of the summed current is the sum, over components, of current for charged time. */
  lemma {:induction false} AppEnergySplits(env: Env, tr: Trace, uid: int)
    ensures AppEnergy(env, tr, uid) ==
            Draw(env.profile.Ma(CameraMa), HeldMs(tr, uid)) + PartsDraw(env, tr, uid, |PARTS|)
  {
    if tr.Boot? || tr.last.ResetAll? {
      PartsDrawNothing(env, tr, uid, |PARTS|);
    } else {
      var p := tr.before;
      AppEnergySplits(env, p, uid);
      if !(tr.last.Tick? && OnBattery(p)) {
        PartsStay(env, tr, uid, |PARTS|);
      } else {
        PartsGrow(env, tr, uid, |PARTS|);
        var held := Camera(p).Open? && Camera(p).uid == uid;
        DrawGrows(env.profile.Ma(CameraMa), HeldMs(p, uid), tr.last.boot, held);
        DrawMore(Flow(held, env.profile.Ma(CameraMa)), PartsRate(env, p, uid, |PARTS|), tr.last.boot);
      }
    }
  }

  lemma {:induction false} DrawLevel(ma: real, level: nat, b: nat)
    ensures Draw(Draw(ma, level), b) == Draw(ma, b * level)
  {
    if b > 0 {
      DrawLevel(ma, level, b - 1);
      assert b * level == (b - 1) * level + level;
      DrawLonger(ma, (b - 1) * level, level);
    }
  }

  lemma {:induction false} LitUnitsNonNegative(tr: Trace)
    ensures LitUnits(tr) >= 0
  {
    if tr.Then? { LitUnitsNonNegative(tr.before); }
  }

  lemma LevelGrows(ma: real, units: nat, more: nat, level: nat, b: nat)
    requires more == b * level
    ensures Draw(ma, units + more) == Draw(ma, units) + Draw(Draw(ma, level), b)
  {
    DrawLevel(ma, level, b);
    DrawLonger(ma, units, more);
  }

  lemma Product(a: nat, b: nat) returns (p: nat)
    ensures p == a * b
  {
    p := a * b;
  }

  lemma LitStep(tr: Trace) returns (more: nat)
    requires tr.Then? && tr.last.Tick? && OnBattery(tr.before) && Lit(tr.before) >= 0
    ensures more == tr.last.boot * Lit(tr.before) && LitUnits(tr) == LitUnits(tr.before) + more
  {
    more := Product(tr.last.boot, Lit(tr.before));
  }

  lemma BrightnessGrows(env: Env, tr: Trace)
    requires tr.Then? && tr.last.Tick? && OnBattery(tr.before) && LitUnits(tr.before) >= 0 && LitUnits(tr) >= 0
    ensures Draw(env.profile.Ma(ScreenBrightnessMa), LitUnits(tr)) ==
            Draw(env.profile.Ma(ScreenBrightnessMa), LitUnits(tr.before))
            + Draw(if Lit(tr.before) >= 0 then Draw(env.profile.Ma(ScreenBrightnessMa), Lit(tr.before)) else 0.0,
                    tr.last.boot)
  {
    var p, b := tr.before, tr.last.boot;
    DrawNothing(b);
    if Lit(p) >= 0 {
      var more := LitStep(tr);
      LevelGrows(env.profile.Ma(ScreenBrightnessMa), LitUnits(p), more, Lit(p), b);
    }
  }

  lemma ScreenOnGrows(env: Env, tr: Trace)
    requires tr.Then? && tr.last.Tick? && OnBattery(tr.before)
    ensures Draw(env.profile.Ma(ScreenOnMa), Charge(tr, ScreenTimer)) ==
            Draw(env.profile.Ma(ScreenOnMa), Charge(tr.before, ScreenTimer))
            + Draw(Flow(ScreenCharging(tr.before), env.profile.Ma(ScreenOnMa)), tr.last.boot)
  {
    DrawGrows(env.profile.Ma(ScreenOnMa), Charge(tr.before, ScreenTimer), tr.last.boot, ScreenCharging(tr.before));
  }

  lemma {:induction false} ScreenEnergySplits(env: Env, tr: Trace)
    ensures LitUnits(tr) >= 0
    ensures ScreenEnergy(env, tr) ==
            Draw(env.profile.Ma(ScreenOnMa), Charge(tr, ScreenTimer))
                + Draw(env.profile.Ma(ScreenBrightnessMa), LitUnits(tr))
  {
    LitUnitsNonNegative(tr);
    if tr.Then? && !tr.last.ResetAll? {
      var p := tr.before;
      ScreenEnergySplits(env, p);
      if tr.last.Tick? && OnBattery(p) {
        ScreenOnGrows(env, tr);
        BrightnessGrows(env, tr);
        DrawMore(Flow(ScreenCharging(p), env.profile.Ma(ScreenOnMa)),
                 if Lit(p) >= 0 then Draw(env.profile.Ma(ScreenBrightnessMa), Lit(p)) else 0.0, tr.last.boot);
      }
    }
  }

  lemma MahIsDraw(ma: real, ms: nat)
    ensures Mah(ma, ms) == Draw(ma, ms) / 3600000.0
  {
    DrawIsProduct(ma, ms);
  }

  lemma PartMahIsEnergy(env: Env, tr: Trace, part: UidPart, uid: int)
    ensures PartMah(env, Run(env, tr), part, uid) == PartDraw(env, tr, part, uid) / 3600000.0
  {
    MahIsDraw(env.profile.Ma(PartMa(part)), Charge(tr, UidTimer(part, uid)));
    ReadingIsCharge(env, tr, UidTimer(part, uid));
  }

  lemma CameraMahIsEnergy(env: Env, tr: Trace, uid: int)
    ensures CameraMah(env, Run(env, tr), uid) == Draw(env.profile.Ma(CameraMa), HeldMs(tr, uid)) / 3600000.0
  {
    MahIsDraw(env.profile.Ma(CameraMa), HeldMs(tr, uid));
    CameraTimeIsHeld(env, tr, uid);
  }

  lemma {:induction false} PartsMahIsDraw(env: Env, tr: Trace, uid: int, n: nat)
    requires n <= |PARTS|
    ensures PartsMah(env, Run(env, tr), uid, n) == PartsDraw(env, tr, uid, n) / 3600000.0
  {
    if n > 0 {
      PartsMahIsDraw(env, tr, uid, n - 1);
      PartMahIsEnergy(env, tr, PARTS[n - 1], uid);
    }
  }

  lemma CountIsCounted(env: Env, tr: Trace, c: CounterKey)
    ensures CountOf(Run(env, tr), c) == Counted(tr, c)
  {
    RunAgrees(env, tr);
  }

  lemma AlarmMahFrom(env: Env, s: State, uid: int, n: nat)
    requires CountOf(s, Alarms(uid)) == n
    ensures AlarmMah(env, s, uid) == Draw(env.profile.Ma(AlarmMa), n)
  {
    DrawIsProduct(env.profile.Ma(AlarmMa), n);
  }

  lemma AlarmMahIsDraw(env: Env, tr: Trace, uid: int)
    ensures AlarmMah(env, Run(env, tr), uid) == Draw(env.profile.Ma(AlarmMa), Counted(tr, Alarms(uid)))
  {
    CountIsCounted(env, tr, Alarms(uid));
    AlarmMahFrom(env, Run(env, tr), uid, Counted(tr, Alarms(uid)));
  }

  /** The integral form of a uid's power: see AppMahIsEnergy. */
  function AppTraceMah(env: Env, tr: Trace, cpu: map<int, real>, uid: int): real {
    AppEnergy(env, tr, uid) / 3600000.0 + CpuMah(cpu, uid)
    + Draw(env.profile.Ma(AlarmMa), Counted(tr, Alarms(uid)))
  }

  /**
   * The APP power of a uid in any run is the integral of the currents active for it over on-battery
   * time since the last Reset, plus its on-battery alarms, plus the cpu power given to the roll-up.
   */
  lemma AppMahIsEnergy(env: Env, tr: Trace, cpu: map<int, real>, uid: int)
    ensures AppMah(env, Run(env, tr), cpu, uid) == AppTraceMah(env, tr, cpu, uid)
  {
    AppEnergySplits(env, tr, uid);
    CameraMahIsEnergy(env, tr, uid);
    AlarmMahIsDraw(env, tr, uid);
    PartsMahIsDraw(env, tr, uid, |PARTS|);
  }

  lemma ScreenMahFrom(env: Env, s: State, on: nat, units: nat)
    requires Reading(s, ScreenTimer) == on && BrightnessUnits(s) == units
    ensures ScreenMah(env, s) ==
            (Draw(env.profile.Ma(ScreenOnMa), on) + Draw(env.profile.Ma(ScreenBrightnessMa), units)) / 3600000.0
  {
    DrawIsProduct(env.profile.Ma(ScreenOnMa), on);
    DrawIsProduct(env.profile.Ma(ScreenBrightnessMa), units);
  }

  /** Screen power is the integral of the screen's current, however its events interleave. */
  lemma ScreenMahIsEnergy(env: Env, tr: Trace)
    ensures ScreenMah(env, Run(env, tr)) == ScreenEnergy(env, tr) / 3600000.0
  {
    ScreenEnergySplits(env, tr);
    BrightnessIsIntegral(env, tr);
    ReadingIsCharge(env, tr, ScreenTimer);
    ScreenMahFrom(env, Run(env, tr), Charge(tr, ScreenTimer), LitUnits(tr));
  }
}
