/** The lazily updated timers of the service compute exactly the trace charges, in every run. */
module Refinement {
  import opened StatsTypes
  import opened CoreSpec
  import opened CoreFacts
  import opened TraceSpec

  ghost predicate KeyKnown(k: TimerKey, uids: set<int>) {
    match k
    case UidTimer(_, u) => u in uids
    case CameraTimer(d, u) => u in uids && d != ""
    case BrightnessTimer(l) => 0 <= l <= SCREEN_BRIGHTNESS_BIN
    case PhoneOnTimer(l) => 0 <= l <= RADIO_SIGNAL_BIN
    case PhoneDataTimer(l) => 0 <= l <= RADIO_SIGNAL_BIN
    case _ => true
  }

  ghost predicate FlagsAgree(s: State, tr: Trace) {
    && s.cameraOn == !Camera(tr).Closed?
    && s.cameraUid == (if Camera(tr).Closed? then INVALID_VALUE else Camera(tr).uid)
    && s.screenOn == ScreenFlag(tr)
    && s.level == LastLevel(tr)
  }

  ghost predicate ClocksAgree(s: State, tr: Trace) {
    && s.clock.onBattery == OnBattery(tr)
    && s.clock.BootMs() == OnBatteryBootMs(tr)
    && s.clock.UpMs() == OnBatteryUpMs(tr)
  }

  ghost predicate TimersAgree(s: State, tr: Trace) {
    && (forall k :: Running(s, k) == On(tr, k))
    && (forall k :: Reading(s, k) == Charge(tr, k))
  }

  ghost predicate KeysKnown(s: State) {
    && (forall k :: k in s.timers ==> KeyKnown(k, s.uidPower.Keys))
    && (forall c :: c in s.counters && c.Alarms? && c.uid != INVALID_VALUE ==> c.uid in s.uidPower)
  }

  ghost predicate Agrees(s: State, tr: Trace) {
    && ClocksAgree(s, tr)
    && FlagsAgree(s, tr)
    && TimersAgree(s, tr)
    && (forall c :: CountOf(s, c) == Counted(tr, c))
    && s.uidPower.Keys == Known(tr)
    && KeysKnown(s)
  }

  /** Shape facts of the trace functions that the events rely on. */
  lemma {:induction false} TraceShape(tr: Trace)
    ensures Camera(tr).Open? ==> Camera(tr).device != ""
    ensures !Camera(tr).Closed? ==> Camera(tr).uid >= 0 && Camera(tr).uid in Known(tr)
    ensures INVALID_VALUE <= LastLevel(tr) <= SCREEN_BRIGHTNESS_BIN
    ensures Lit(tr) != INVALID_VALUE ==> Lit(tr) == LastLevel(tr) && ScreenFlag(tr)
    ensures forall u :: u in Known(tr) ==> u >= 0
  {
    if tr.Then? { TraceShape(tr.before); }
  }

  ghost predicate IsCamera(kind: StatsType) { kind == CameraOn || kind == CameraFlashlightOn }

  ghost predicate IsScreenKind(kind: StatsType) { kind == ScreenOn || kind == ScreenBrightness }

  ghost predicate RunningAgrees(s: State, tr: Trace) {
    forall k :: Running(s, k) == On(tr, k)
  }

  lemma TimerAddressed(e: Event, k: TimerKey)
    requires e.StateEvent? && !IsCamera(e.kind) && !IsScreenKind(e.kind)
    ensures TimerFor(e.kind, e.level, e.uid) == Some(k) <==> Addresses(e, k)
  {}

  lemma PlainEvent(s: State, tr: Trace, e: Event)
    requires RunningAgrees(s, tr) && FlagsAgree(s, tr)
    requires e.StateEvent? && !IsCamera(e.kind) && !IsScreenKind(e.kind)
    ensures RunningAgrees(UpdateTimer(s, e.kind, e.state, e.level, e.uid), Then(tr, e))
    ensures FlagsAgree(UpdateTimer(s, e.kind, e.state, e.level, e.uid), Then(tr, e))
  {
    UpdateTimerFacts(s, e.kind, e.state, e.level, e.uid);
    var r := UpdateTimer(s, e.kind, e.state, e.level, e.uid);
    forall k ensures Running(r, k) == On(Then(tr, e), k) {
      TimerAddressed(e, k);
      assert Running(s, k) == On(tr, k);
    }
  }

  /** A screen event read off the trace: both screen charges start or stop, nothing else moves. */
  lemma ScreenEffect(tr: Trace, e: Event, k: TimerKey)
    requires e.StateEvent? && e.kind == ScreenOn
    ensures On(Then(tr, e), k) ==
            if (k == ScreenTimer || (k == BrightnessTimer(LastLevel(tr)) && ValidLevel(LastLevel(tr))))
               && e.state != OtherState
            then e.state == Activated else On(tr, k)
  {
    TraceShape(tr);
  }

  lemma ScreenTimerEvent(s: State, tr: Trace, e: Event)
    requires RunningAgrees(s, tr) && FlagsAgree(s, tr)
    requires e.StateEvent? && e.kind == ScreenOn
    ensures RunningAgrees(UpdateScreenTimer(s, e.state), Then(tr, e))
  {
    ScreenTimerFacts(s, e.state);
    forall k ensures Running(UpdateScreenTimer(s, e.state), k) == On(Then(tr, e), k) {
      ScreenEffect(tr, e, k);
      assert Running(s, k) == On(tr, k);
    }
  }

  lemma BrightnessEvent(s: State, tr: Trace, e: Event)
    requires RunningAgrees(s, tr) && FlagsAgree(s, tr)
    requires e.StateEvent? && e.kind == ScreenBrightness && s.screenOn
    ensures RunningAgrees(UpdateBrightnessTimer(s, e.level), Then(tr, e))
    ensures FlagsAgree(UpdateBrightnessTimer(s, e.level), Then(tr, e))
  {
    BrightnessFacts(s, e.level);
    TraceShape(tr);
    var r := UpdateBrightnessTimer(s, e.level);
    forall k ensures Running(r, k) == On(Then(tr, e), k) {
      assert Running(s, k) == On(tr, k);
    }
  }

  lemma ScreenTimerFlags(s: State, tr: Trace, e: Event)
    requires FlagsAgree(s, tr) && e.StateEvent? && e.kind == ScreenOn
    ensures FlagsAgree(UpdateScreenTimer(s, e.state), Then(tr, e))
  {}

  lemma IgnoredBrightness(s: State, tr: Trace, e: Event)
    requires RunningAgrees(s, tr) && FlagsAgree(s, tr)
    requires e.StateEvent? && e.kind == ScreenBrightness && !s.screenOn
    ensures RunningAgrees(s, Then(tr, e)) && FlagsAgree(s, Then(tr, e))
  {
    forall k ensures Running(s, k) == On(Then(tr, e), k) {
      assert Running(s, k) == On(tr, k);
    }
  }

  lemma ScreenEvent(s: State, tr: Trace, e: Event)
    requires RunningAgrees(s, tr) && FlagsAgree(s, tr)
    requires e.StateEvent? && IsScreenKind(e.kind)
    ensures RunningAgrees(UpdateScreen(s, e.kind, e.state, e.level), Then(tr, e))
    ensures FlagsAgree(UpdateScreen(s, e.kind, e.state, e.level), Then(tr, e))
  {
    if e.kind == ScreenOn {
      ScreenTimerEvent(s, tr, e);
      ScreenTimerFlags(s, tr, e);
    } else if s.screenOn {
      BrightnessEvent(s, tr, e);
    } else {
      IgnoredBrightness(s, tr, e);
    }
  }

  /** A camera event read off the trace: the holder's own timer and flashlight are all it can move. */
  lemma CameraEffect(tr: Trace, e: Event, k: TimerKey)
    requires e.StateEvent? && IsCamera(e.kind)
    ensures On(Then(tr, e), k) ==
            if k.CameraTimer? then Camera(Then(tr, e)) == Open(k.device, k.uid)
            else if !Camera(tr).Closed? && k == UidTimer(Flashlight, Camera(tr).uid) then
              if e.kind == CameraFlashlightOn && e.state != OtherState then e.state == Activated
              else On(tr, k) && Camera(Then(tr, e)) == Camera(tr)
            else On(tr, k)
  {}

  lemma OpenFlags(s: State, tr: Trace, e: Event)
    requires RunningAgrees(s, tr) && FlagsAgree(s, tr)
    requires e.StateEvent? && e.kind == CameraOn && e.state == Activated
    ensures FlagsAgree(UpdateCamera(s, e.kind, e.state, e.uid, e.device), Then(tr, e))
  {
    assert Running(s, CameraTimer(e.device, e.uid)) == On(tr, CameraTimer(e.device, e.uid));
  }

  lemma CloseFlags(s: State, tr: Trace, e: Event)
    requires RunningAgrees(s, tr) && FlagsAgree(s, tr)
    requires e.StateEvent? && e.kind == CameraOn && e.state == Deactivated
    ensures FlagsAgree(UpdateCamera(s, e.kind, e.state, e.uid, e.device), Then(tr, e))
  {
    TraceShape(tr);
    assert Running(s, CameraTimer(e.device, s.cameraUid)) == On(tr, CameraTimer(e.device, s.cameraUid));
  }

  lemma CameraFlags(s: State, tr: Trace, e: Event)
    requires RunningAgrees(s, tr) && FlagsAgree(s, tr)
    requires e.StateEvent? && IsCamera(e.kind)
    ensures FlagsAgree(UpdateCamera(s, e.kind, e.state, e.uid, e.device), Then(tr, e))
  {
    if e.kind == CameraOn && e.state == Activated {
      OpenFlags(s, tr, e);
    } else if e.kind == CameraOn && e.state == Deactivated {
      CloseFlags(s, tr, e);
    }
  }

  lemma FlashEvent(s: State, tr: Trace, e: Event)
    requires RunningAgrees(s, tr) && FlagsAgree(s, tr)
    requires e.StateEvent? && e.kind == CameraFlashlightOn
    ensures RunningAgrees(UpdateCamera(s, e.kind, e.state, e.uid, e.device), Then(tr, e))
  {
    UpdateTimerFacts(s, FlashlightOn, e.state, INVALID_VALUE, s.cameraUid);
    TraceShape(tr);
    forall k ensures Running(UpdateCamera(s, e.kind, e.state, e.uid, e.device), k) == On(Then(tr, e), k) {
      CameraEffect(tr, e, k);
      assert Running(s, k) == On(tr, k);
    }
  }

  lemma OpenEvent(s: State, tr: Trace, e: Event)
    requires RunningAgrees(s, tr) && FlagsAgree(s, tr)
    requires e.StateEvent? && e.kind == CameraOn && e.state != Deactivated
    ensures RunningAgrees(UpdateCamera(s, e.kind, e.state, e.uid, e.device), Then(tr, e))
  {
    CameraTimerFacts(s, e.state, e.uid, e.device);
    forall k ensures Running(UpdateCamera(s, e.kind, e.state, e.uid, e.device), k) == On(Then(tr, e), k) {
      CameraEffect(tr, e, k);
      assert Running(s, k) == On(tr, k);
    }
  }

  lemma CloseEvent(s: State, tr: Trace, e: Event)
    requires RunningAgrees(s, tr) && FlagsAgree(s, tr)
    requires e.StateEvent? && e.kind == CameraOn && e.state == Deactivated
    ensures RunningAgrees(UpdateCamera(s, e.kind, e.state, e.uid, e.device), Then(tr, e))
  {
    CameraTimerFacts(s, e.state, s.cameraUid, e.device);
    TraceShape(tr);
    assert Running(s, CameraTimer(e.device, s.cameraUid)) == On(tr, CameraTimer(e.device, s.cameraUid));
    forall k ensures Running(UpdateCamera(s, e.kind, e.state, e.uid, e.device), k) == On(Then(tr, e), k) {
      CameraEffect(tr, e, k);
      assert Running(s, k) == On(tr, k);
    }
  }

  lemma CameraEvent(s: State, tr: Trace, e: Event)
    requires RunningAgrees(s, tr) && FlagsAgree(s, tr)
    requires e.StateEvent? && IsCamera(e.kind)
    ensures RunningAgrees(UpdateCamera(s, e.kind, e.state, e.uid, e.device), Then(tr, e))
  {
    if e.kind == CameraFlashlightOn {
      FlashEvent(s, tr, e);
    } else if e.state == Deactivated {
      CloseEvent(s, tr, e);
    } else {
      OpenEvent(s, tr, e);
    }
  }

  /** The keys a state event may create. */
  ghost function NewKeys(s: State, e: Event): set<TimerKey>
    requires e.StateEvent?
  {
    if IsCamera(e.kind) then
      (if e.uid >= 0 && e.device != "" then {CameraTimer(e.device, e.uid)} else {})
      + (if s.cameraUid >= 0 && e.device != "" then {CameraTimer(e.device, s.cameraUid)} else {})
      + TimerKeys(FlashlightOn, INVALID_VALUE, s.cameraUid)
    else if IsScreenKind(e.kind) then {ScreenTimer} + LevelKey(s.level) + LevelKey(e.level)
    else TimerKeys(e.kind, e.level, e.uid)
  }

  lemma CameraKeysAdded(s: State, e: Event)
    requires e.StateEvent? && IsCamera(e.kind)
    ensures UpdateCamera(s, e.kind, e.state, e.uid, e.device).timers.Keys <= s.timers.Keys + NewKeys(s, e)
  {
    CameraTimerFacts(s, e.state, e.uid, e.device);
    CameraTimerFacts(s, e.state, s.cameraUid, e.device);
    UpdateTimerFacts(s, FlashlightOn, e.state, INVALID_VALUE, s.cameraUid);
  }

  lemma ScreenKeysAdded(s: State, e: Event)
    requires e.StateEvent? && IsScreenKind(e.kind)
    ensures UpdateScreen(s, e.kind, e.state, e.level).timers.Keys <= s.timers.Keys + NewKeys(s, e)
  {
    ScreenTimerFacts(s, e.state);
    BrightnessFacts(s, e.level);
  }

  lemma PlainKeysAdded(s: State, e: Event)
    requires e.StateEvent? && !IsCamera(e.kind) && !IsScreenKind(e.kind)
    ensures UpdateTimer(s, e.kind, e.state, e.level, e.uid).timers.Keys <= s.timers.Keys + NewKeys(s, e)
  {
    UpdateTimerFacts(s, e.kind, e.state, e.level, e.uid);
  }

  lemma NewKeysKnown(s: State, tr: Trace, e: Event, k: TimerKey)
    requires FlagsAgree(s, tr) && e.StateEvent? && k in NewKeys(s, e)
    ensures KeyKnown(k, Known(Then(tr, e)))
  {
    TraceShape(tr);
  }

  lemma StateEventKnown(s: State, r: State, tr: Trace, e: Event)
    requires e.StateEvent? && KeysKnown(s) && FlagsAgree(s, tr)
    requires s.uidPower.Keys == Known(Then(tr, e))
    requires OnlySwitches(s, r) && r.timers.Keys <= s.timers.Keys + NewKeys(s, e)
    ensures KeysKnown(r)
  {
    forall k | k in r.timers ensures KeyKnown(k, r.uidPower.Keys) {
      if k !in s.timers { NewKeysKnown(s, tr, e, k); }
    }
  }

  lemma QuietAgrees(s: State, r: State, tr: Trace, e: Event)
    requires e.StateEvent? && OnlySwitches(s, r)
    requires ClocksAgree(s, tr)
    requires forall k :: Reading(s, k) == Charge(tr, k)
    requires forall c :: CountOf(s, c) == Counted(tr, c)
    ensures ClocksAgree(r, Then(tr, e))
    ensures forall k :: Reading(r, k) == Charge(Then(tr, e), k)
    ensures forall c :: CountOf(r, c) == Counted(Then(tr, e), c)
  {
    forall k ensures Reading(r, k) == Charge(Then(tr, e), k) {
      assert Reading(r, k) == Reading(s, k) == Charge(tr, k);
    }
    forall c ensures CountOf(r, c) == Counted(Then(tr, e), c) {
      assert CountOf(r, c) == CountOf(s, c) == Counted(tr, c);
    }
  }

  lemma SameTimers(s: State, r: State, tr: Trace)
    requires TimersAgree(s, tr) && r.clock == s.clock && r.timers == s.timers
    ensures TimersAgree(r, tr)
  {
    forall k ensures Running(r, k) == On(tr, k) && Reading(r, k) == Charge(tr, k) {
      assert Running(s, k) == On(tr, k) && Reading(s, k) == Charge(tr, k);
    }
  }

  lemma SilentEvent(s: State, tr: Trace, e: Event)
    requires TimersAgree(s, tr) && (e.DataEvent? || e.CpuUid?)
    ensures TimersAgree(s, Then(tr, e))
  {
    forall k ensures Running(s, k) == On(Then(tr, e), k) && Reading(s, k) == Charge(Then(tr, e), k) {
      assert Running(s, k) == On(tr, k) && Reading(s, k) == Charge(tr, k);
    }
  }

  lemma SameCounts(s: State, r: State, tr: Trace)
    requires (forall c :: CountOf(s, c) == Counted(tr, c)) && r.counters == s.counters
    ensures forall c :: CountOf(r, c) == Counted(tr, c)
  {
    forall c ensures CountOf(r, c) == Counted(tr, c) {
      assert CountOf(s, c) == Counted(tr, c);
    }
  }

  lemma KeysStayKnown(s: State, r: State)
    requires KeysKnown(s) && r.timers == s.timers && r.counters == s.counters
    requires s.uidPower.Keys <= r.uidPower.Keys
    ensures KeysKnown(r)
  {
    forall k | k in r.timers ensures KeyKnown(k, r.uidPower.Keys) {
      assert k in s.timers;
    }
  }

  /** Only the uid map differs, and it only gained uids. */
  lemma WiderUids(s: State, r: State, tr: Trace)
    requires Agrees(s, tr) && r == s.(uidPower := r.uidPower) && s.uidPower.Keys <= r.uidPower.Keys
    ensures ClocksAgree(r, tr) && FlagsAgree(r, tr) && TimersAgree(r, tr) && KeysKnown(r)
    ensures forall c :: CountOf(r, c) == Counted(tr, c)
  {
    SameTimers(s, r, tr);
    SameCounts(s, r, tr);
    KeysStayKnown(s, r);
  }

  lemma RegisterAgrees(s: State, tr: Trace, uid: int)
    requires Agrees(s, tr)
    ensures var r := UpdateUidMap(s, uid);
            && ClocksAgree(r, tr) && FlagsAgree(r, tr) && TimersAgree(r, tr) && KeysKnown(r)
            && (forall c :: CountOf(r, c) == Counted(tr, c))
            && r.uidPower.Keys == Known(tr) + (if uid > INVALID_VALUE then {uid} else {})
  {
    WiderUids(s, UpdateUidMap(s, uid), tr);
  }

  /** s registered: everything Agrees says except that the trace has already seen the uid. */
  ghost predicate Registered(s: State, tr: Trace, e: Event) {
    && ClocksAgree(s, tr) && FlagsAgree(s, tr) && TimersAgree(s, tr) && KeysKnown(s)
    && (forall c :: CountOf(s, c) == Counted(tr, c))
    && s.uidPower.Keys == Known(Then(tr, e))
  }

  lemma FinishStateEvent(s: State, r: State, tr: Trace, e: Event)
    requires e.StateEvent? && Registered(s, tr, e)
    requires OnlySwitches(s, r) && r.timers.Keys <= s.timers.Keys + NewKeys(s, e)
    requires RunningAgrees(r, Then(tr, e)) && FlagsAgree(r, Then(tr, e))
    ensures Agrees(r, Then(tr, e))
  {
    StateEventKnown(s, r, tr, e);
    QuietAgrees(s, r, tr, e);
  }

  lemma CameraAgrees(s: State, tr: Trace, e: Event)
    requires e.StateEvent? && IsCamera(e.kind) && Registered(s, tr, e)
    ensures Agrees(UpdateCamera(s, e.kind, e.state, e.uid, e.device), Then(tr, e))
  {
    CameraFacts(s, e.kind, e.state, e.uid, e.device);
    CameraFlags(s, tr, e);
    CameraEvent(s, tr, e);
    CameraKeysAdded(s, e);
    FinishStateEvent(s, UpdateCamera(s, e.kind, e.state, e.uid, e.device), tr, e);
  }

  lemma ScreenAgrees(s: State, tr: Trace, e: Event)
    requires e.StateEvent? && IsScreenKind(e.kind) && Registered(s, tr, e)
    ensures Agrees(UpdateScreen(s, e.kind, e.state, e.level), Then(tr, e))
  {
    ScreenFacts(s, e.kind, e.state, e.level);
    ScreenEvent(s, tr, e);
    ScreenKeysAdded(s, e);
    FinishStateEvent(s, UpdateScreen(s, e.kind, e.state, e.level), tr, e);
  }

  lemma PlainAgrees(s: State, tr: Trace, e: Event)
    requires e.StateEvent? && !IsCamera(e.kind) && !IsScreenKind(e.kind) && Registered(s, tr, e)
    ensures Agrees(UpdateTimer(s, e.kind, e.state, e.level, e.uid), Then(tr, e))
  {
    UpdateTimerFacts(s, e.kind, e.state, e.level, e.uid);
    PlainEvent(s, tr, e);
    PlainKeysAdded(s, e);
    FinishStateEvent(s, UpdateTimer(s, e.kind, e.state, e.level, e.uid), tr, e);
  }

  lemma StateEventAgrees(s: State, tr: Trace, e: Event, env: Env)
    requires Agrees(s, tr) && e.StateEvent?
    ensures Agrees(Step(env, s, e), Then(tr, e))
  {
    RegisterAgrees(s, tr, e.uid);
    var s1 := UpdateUidMap(s, e.uid);
    if IsCamera(e.kind) {
      CameraAgrees(s1, tr, e);
    } else if IsScreenKind(e.kind) {
      ScreenAgrees(s1, tr, e);
    } else {
      PlainAgrees(s1, tr, e);
    }
  }

  lemma CounterAddressed(e: Event, c: CounterKey)
    requires e.DataEvent?
    ensures Counts(e, c) <==> CounterFor(e.kind, e.uid) == Some(c) && e.data > 0
  {}

  lemma CountMoves(s: State, e: Event, c: CounterKey)
    requires e.DataEvent?
    ensures CountOf(UpdateData(s, e.kind, e.data, e.uid), c) == CountOf(s, c)
              + if CounterFor(e.kind, e.uid) == Some(c) && e.data > 0 && s.clock.onBattery then e.data else 0
  {}

  lemma CountsAgree(s: State, r: State, tr: Trace, e: Event, c: CounterKey)
    requires e.DataEvent? && s.clock.onBattery == OnBattery(tr)
    requires CountOf(s, c) == Counted(tr, c)
    requires r == UpdateData(s, e.kind, e.data, e.uid)
    ensures CountOf(r, c) == Counted(Then(tr, e), c)
  {
    CounterAddressed(e, c);
    CountMoves(s, e, c);
  }

  lemma CounterKnown(s: State, tr: Trace, e: Event)
    requires e.DataEvent? && Registered(s, tr, e)
    ensures KeysKnown(UpdateData(s, e.kind, e.data, e.uid))
  {
    TraceShape(tr);
  }

  lemma CounterAgrees(s: State, tr: Trace, e: Event)
    requires e.DataEvent? && Registered(s, tr, e) && UpdateUidMap(s, e.uid) == s
    ensures Agrees(UpdateData(s, e.kind, e.data, e.uid), Then(tr, e))
  {
    var r := UpdateData(s, e.kind, e.data, e.uid);
    SameTimers(s, r, tr);
    SilentEvent(r, tr, e);
    CounterKnown(s, tr, e);
    forall c ensures CountOf(r, c) == Counted(Then(tr, e), c) {
      CountsAgree(s, r, tr, e, c);
    }
  }

  lemma DataEventAgrees(s: State, tr: Trace, e: Event, env: Env)
    requires Agrees(s, tr) && e.DataEvent?
    ensures Agrees(Step(env, s, e), Then(tr, e))
  {
    RegisterAgrees(s, tr, e.uid);
    CounterAgrees(UpdateUidMap(s, e.uid), tr, e);
  }

  lemma ClockEventAgrees(s: State, tr: Trace, e: Event, env: Env)
    requires Agrees(s, tr) && (e.Tick? || e.Plug?)
    ensures Agrees(Step(env, s, e), Then(tr, e))
  {
    var r := Step(env, s, e);
    forall k ensures Running(r, k) == On(Then(tr, e), k) && Reading(r, k) == Charge(Then(tr, e), k) {
      assert Running(s, k) == On(tr, k) && Reading(s, k) == Charge(tr, k);
    }
    forall c ensures CountOf(r, c) == Counted(Then(tr, e), c) {
      assert CountOf(s, c) == Counted(tr, c);
    }
  }

  lemma ResetAgrees(s: State, tr: Trace)
    requires Agrees(s, tr)
    ensures Agrees(Reset(s), Then(tr, ResetAll))
  {
    var r := Reset(s);
    forall k ensures Running(r, k) == On(Then(tr, ResetAll), k) && Reading(r, k) == Charge(Then(tr, ResetAll), k) {
    }
  }

  /** A query, a registration or a roll-up: timers may be rebased, nothing observable moves. */
  lemma QueryAgrees(s: State, r: State, tr: Trace, e: Event)
    requires Agrees(s, tr) && (e.AskLevel? || e.AskUid? || e.Compute?)
    requires r.clock == s.clock && r.counters == s.counters && r.uidPower.Keys == s.uidPower.Keys
    requires r.timers.Keys == s.timers.Keys
    requires r.cameraOn == s.cameraOn && r.cameraUid == s.cameraUid
    requires r.screenOn == s.screenOn && r.level == s.level
    requires forall j :: Reading(r, j) == Reading(s, j) && Running(r, j) == Running(s, j)
    ensures Agrees(r, Then(tr, e))
  {
    forall k ensures Running(r, k) == On(Then(tr, e), k) && Reading(r, k) == Charge(Then(tr, e), k) {
      assert Running(s, k) == On(tr, k) && Reading(s, k) == Charge(tr, k);
    }
    forall c ensures CountOf(r, c) == Counted(Then(tr, e), c) {
      assert CountOf(s, c) == Counted(tr, c);
    }
  }

  lemma ComputeKeepsReadings(env: Env, s: State, cpu: map<int, real>)
    ensures var r := ComputePower(env, s, cpu);
            && r.clock == s.clock && r.counters == s.counters && r.uidPower.Keys == s.uidPower.Keys
            && r.timers.Keys == s.timers.Keys
            && r.cameraOn == s.cameraOn && r.cameraUid == s.cameraUid
            && r.screenOn == s.screenOn && r.level == s.level
            && forall j :: Reading(r, j) == Reading(s, j) && Running(r, j) == Running(s, j)
  {
    var q := Refresh(s, BilledKeys(s));
    var r := ComputePower(env, s, cpu);
    RefreshFacts(s, BilledKeys(s));
    forall j ensures Reading(r, j) == Reading(s, j) && Running(r, j) == Running(s, j) {
      assert Reading(q, j) == Reading(s, j) && Running(q, j) == Running(s, j);
    }
  }

  lemma StepAgrees(env: Env, s: State, tr: Trace, e: Event)
    requires Agrees(s, tr)
    ensures Agrees(Step(env, s, e), Then(tr, e))
  {
    match e
    case Tick(_, _) => ClockEventAgrees(s, tr, e, env);
    case Plug(_) => ClockEventAgrees(s, tr, e, env);
    case StateEvent(_, _, _, _, _) => StateEventAgrees(s, tr, e, env);
    case DataEvent(_, _, _) => DataEventAgrees(s, tr, e, env);
    case CpuUid(uid) =>
      RegisterAgrees(s, tr, uid);
      RegistrationAgrees(UpdateUidMap(s, uid), tr, e);
    case AskLevel(kind, level) =>
      RefreshFacts(s, LevelKeys(s, kind, level));
      QueryAgrees(s, Step(env, s, e), tr, e);
    case AskUid(uid, kind) =>
      RefreshFacts(s, UidKeys(s, uid, kind));
      QueryAgrees(s, Step(env, s, e), tr, e);
    case Compute(cpu) =>
      ComputeKeepsReadings(env, s, cpu);
      QueryAgrees(s, Step(env, s, e), tr, e);
    case ResetAll => ResetAgrees(s, tr);
  }

  lemma RegistrationAgrees(r: State, tr: Trace, e: Event)
    requires e.CpuUid? && Registered(r, tr, e)
    ensures Agrees(r, Then(tr, e))
  {
    SilentEvent(r, tr, e);
    forall c ensures CountOf(r, c) == Counted(Then(tr, e), c) {
      assert CountOf(r, c) == Counted(tr, c);
    }
  }

  /**
   * Every run of the service agrees with what its events say: each timer answers the milliseconds
   * its component was active on battery since the last Reset, each counter the on-battery counts,
   * the four flags are the trace's, and every uid a timer or counter names is registered.
   */
  lemma {:induction false} RunAgrees(env: Env, tr: Trace)
    ensures Agrees(Run(env, tr), tr)
  {
    if tr.Then? {
      RunAgrees(env, tr.before);
      StepAgrees(env, Run(env, tr.before), tr.before, tr.last);
    }
  }
}
