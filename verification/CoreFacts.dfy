/** What each operation of the core moves: which timers run afterwards, and that no reading jumps. */
module CoreFacts {
  import opened StatsTypes
  import opened CoreSpec

  /** r differs from s at most in the switches and flags a state event may set; no reading moves. */
  ghost predicate OnlySwitches(s: State, r: State) {
    && r == s.(timers := r.timers, cameraOn := r.cameraOn, cameraUid := r.cameraUid,
               screenOn := r.screenOn, level := r.level)
    && s.timers.Keys <= r.timers.Keys
    && forall j :: Reading(r, j) == Reading(s, j)
  }

  lemma SwitchFacts(s: State, k: TimerKey, st: StatsState)
    ensures var r := Switch(s, k, st);
            && OnlySwitches(s, r)
            && r.timers.Keys == s.timers.Keys + {k}
            && (forall j :: Running(r, j) == if j != k || st == OtherState then Running(s, j) else st == Activated)
  {}

  ghost function TimerKeys(kind: StatsType, level: int, uid: int): set<TimerKey> {
    match TimerFor(kind, level, uid) case Some(k) => {k} case None => {}
  }

  ghost function LevelKey(level: int): set<TimerKey> {
    if ValidLevel(level) then {BrightnessTimer(level)} else {}
  }

  lemma UpdateTimerFacts(s: State, kind: StatsType, st: StatsState, level: int, uid: int)
    ensures var r := UpdateTimer(s, kind, st, level, uid);
            && OnlySwitches(s, r)
            && r.timers.Keys == s.timers.Keys + TimerKeys(kind, level, uid)
            && (forall j :: Running(r, j) ==
                            if TimerFor(kind, level, uid) == Some(j) && st != OtherState then st == Activated
                            else Running(s, j))
  {
    if TimerFor(kind, level, uid).Some? { SwitchFacts(s, TimerFor(kind, level, uid).value, st); }
  }

  lemma BrightnessSwitchFacts(s: State, level: int, st: StatsState)
    ensures var r := SwitchBrightness(s, level, st);
            && OnlySwitches(s, r)
            && r.timers.Keys == s.timers.Keys + LevelKey(level)
            && (forall j :: Running(r, j) ==
                            if j == BrightnessTimer(level) && ValidLevel(level) && st != OtherState
                            then st == Activated else Running(s, j))
  {
    if ValidLevel(level) { SwitchFacts(s, BrightnessTimer(level), st); }
  }

  lemma ScreenTimerFacts(s: State, st: StatsState)
    ensures var r := UpdateScreenTimer(s, st);
            && OnlySwitches(s, r)
            && r.timers.Keys == s.timers.Keys + {ScreenTimer} + LevelKey(s.level)
            && (forall j :: Running(r, j) ==
                            if (j == ScreenTimer || (j == BrightnessTimer(s.level) && ValidLevel(s.level)))
                               && st != OtherState
                            then st == Activated else Running(s, j))
  {
    var s1 := Switch(s, ScreenTimer, st);
    SwitchFacts(s, ScreenTimer, st);
    BrightnessSwitchFacts(s1, s.level, st);
    FlagsOnly(SwitchBrightness(s1, s.level, st), UpdateScreenTimer(s, st));
  }

  /** Setting flags moves no timer. */
  lemma FlagsOnly(s: State, r: State)
    requires r == s.(cameraOn := r.cameraOn, cameraUid := r.cameraUid, screenOn := r.screenOn, level := r.level)
    ensures OnlySwitches(s, r) && forall j :: Running(r, j) == Running(s, j)
  {}

  lemma BrightnessChange(s: State, level: int)
    requires ValidLevel(level) && s.level > INVALID_VALUE && level != s.level
    ensures var r := UpdateBrightnessTimer(s, level);
            && OnlySwitches(s, r)
            && r.timers.Keys == s.timers.Keys + LevelKey(s.level) + LevelKey(level)
            && (forall j :: Running(r, j) ==
                            if j == BrightnessTimer(level) then true
                            else if j == BrightnessTimer(s.level) && ValidLevel(s.level) then false
                            else Running(s, j))
  {
    var s1 := SwitchBrightness(s, s.level, Deactivated);
    var s2 := SwitchBrightness(s1, level, Activated);
    BrightnessSwitchFacts(s, s.level, Deactivated);
    BrightnessSwitchFacts(s1, level, Activated);
    FlagsOnly(s2, s2.(level := level));
  }

  lemma BrightnessFacts(s: State, level: int)
    ensures var r := UpdateBrightnessTimer(s, level);
            && OnlySwitches(s, r)
            && r.timers.Keys <= s.timers.Keys + LevelKey(s.level) + LevelKey(level)
            && (ValidLevel(level) ==>
                  forall j :: Running(r, j) ==
                              if j == BrightnessTimer(level) then true
                              else if j == BrightnessTimer(s.level) && ValidLevel(s.level) then false
                              else Running(s, j))
  {
    if ValidLevel(level) {
      if s.level <= INVALID_VALUE || level == s.level {
        var s1 := SwitchBrightness(s, level, Activated);
        BrightnessSwitchFacts(s, level, Activated);
        FlagsOnly(s1, s1.(level := level));
      } else {
        BrightnessChange(s, level);
      }
    }
  }

  lemma ScreenFacts(s: State, kind: StatsType, st: StatsState, level: int)
    ensures OnlySwitches(s, UpdateScreen(s, kind, st, level))
  {
    ScreenTimerFacts(s, st);
    BrightnessFacts(s, level);
  }

  lemma CameraTimerFacts(s: State, st: StatsState, uid: int, device: string)
    ensures var r := UpdateCameraTimer(s, st, uid, device);
            && OnlySwitches(s, r)
            && r.timers.Keys <= s.timers.Keys
                + (if uid > INVALID_VALUE && device != "" then {CameraTimer(device, uid)} else {})
                                + TimerKeys(FlashlightOn, INVALID_VALUE, s.cameraUid)
            && (forall j :: Running(r, j) ==
                            if uid <= INVALID_VALUE || device == "" then Running(s, j)
                            else if j == CameraTimer(device, uid) && st != OtherState then st == Activated
                            else if st == Deactivated && Running(s, CameraTimer(device, uid))
                                    && s.cameraUid > INVALID_VALUE && j == UidTimer(Flashlight, s.cameraUid)
                            then false else Running(s, j))
  {
    if uid > INVALID_VALUE && device != "" {
      var k := CameraTimer(device, uid);
      if st == Deactivated && Running(s, k) {
        CameraClosed(s, uid, device);
      } else {
        SwitchFacts(s, k, st);
        FlagsOnly(Switch(s, k, st), UpdateCameraTimer(s, st, uid, device));
      }
    }
  }

  lemma CameraClosed(s: State, uid: int, device: string)
    requires uid > INVALID_VALUE && device != "" && Running(s, CameraTimer(device, uid))
    ensures var r := UpdateCameraTimer(s, Deactivated, uid, device);
            && OnlySwitches(s, r)
            && r.timers.Keys == s.timers.Keys + {CameraTimer(device, uid)}
                                + TimerKeys(FlashlightOn, INVALID_VALUE, s.cameraUid)
            && (forall j :: Running(r, j) ==
                            if j == CameraTimer(device, uid)
                               || (s.cameraUid > INVALID_VALUE && j == UidTimer(Flashlight, s.cameraUid))
                            then false else Running(s, j))
  {
    var s1 := Switch(s, CameraTimer(device, uid), Deactivated);
    SwitchFacts(s, CameraTimer(device, uid), Deactivated);
    UpdateTimerFacts(s1, FlashlightOn, Deactivated, INVALID_VALUE, s.cameraUid);
    FlagsOnly(UpdateTimer(s1, FlashlightOn, Deactivated, INVALID_VALUE, s.cameraUid),
              UpdateCameraTimer(s, Deactivated, uid, device));
  }

  lemma CameraFacts(s: State, kind: StatsType, st: StatsState, uid: int, device: string)
    ensures OnlySwitches(s, UpdateCamera(s, kind, st, uid, device))
  {
    CameraTimerFacts(s, st, uid, device);
    CameraTimerFacts(s, st, s.cameraUid, device);
    UpdateTimerFacts(s, FlashlightOn, st, INVALID_VALUE, s.cameraUid);
  }

  lemma {:induction false} UpdateStateFacts(s: State, kind: StatsType, st: StatsState, level: int, uid: int,
                                            device: string)
    ensures OnlySwitches(UpdateUidMap(s, uid), UpdateState(s, kind, st, level, uid, device))
  {
    var s1 := UpdateUidMap(s, uid);
    ScreenFacts(s1, kind, st, level);
    CameraFacts(s1, kind, st, uid, device);
    UpdateTimerFacts(s1, kind, st, level, uid);
  }

  lemma RefreshFacts(s: State, ks: set<TimerKey>)
    ensures var r := Refresh(s, ks);
            && r == s.(timers := r.timers) && r.timers.Keys == s.timers.Keys
            && (forall j :: Reading(r, j) == Reading(s, j) && Running(r, j) == Running(s, j))
  {}

  lemma RefreshTwice(s: State, a: set<TimerKey>, b: set<TimerKey>)
    ensures Refresh(Refresh(s, a), b) == Refresh(s, a + b)
  {
    assert Refresh(Refresh(s, a), b).timers == Refresh(s, a + b).timers;
  }

  /** Only the keys that have a timer matter. */
  lemma RefreshSame(s: State, a: set<TimerKey>, b: set<TimerKey>)
    requires forall k :: k in s.timers ==> (k in a <==> k in b)
    ensures Refresh(s, a) == Refresh(s, b)
  {
    assert Refresh(s, a).timers == Refresh(s, b).timers;
  }

  lemma RefreshNone(s: State, a: set<TimerKey>)
    requires a == {}
    ensures Refresh(s, a) == s
  {
    assert Refresh(s, a).timers == s.timers;
  }
}
