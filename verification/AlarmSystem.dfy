/** One alarm system (alarm_system.cpp): a timed arm and disarm machine.  Panel status values are those
    of the IAS ACE cluster, ZCL 07-5123-06 section 8.3. */
module AlarmSystemMachine {
  import opened Basics
  import opened AlarmDeviceTable

  datatype State = Disarmed | ExitDelay | Arming | Armed | EntryDelay | InAlarm
  datatype Mode = ModeDisarmed | ModeStay | ModeNight | ModeAway

  const PANEL_DISARMED: u8 := 0
  const PANEL_ARMED_STAY: u8 := 1
  const PANEL_ARMED_NIGHT: u8 := 2
  const PANEL_ARMED_AWAY: u8 := 3
  const PANEL_EXIT_DELAY: u8 := 4
  const PANEL_ENTRY_DELAY: u8 := 5
  const PANEL_NOT_READY: u8 := 6
  const PANEL_IN_ALARM: u8 := 7
  const PANEL_ARMING_STAY: u8 := 8
  const PANEL_ARMING_NIGHT: u8 := 9
  const PANEL_ARMING_AWAY: u8 := 10

  /** The config items of one mode, all of type uint8. */
  datatype Delays = Delays(entry: u8, exit: u8, trigger: u8)

  /** What the alarm system is configured to; `armMode` is None when the item holds no known mode. */
  datatype Config = Config(disarmed: Delays, stay: Delays, night: Delays, away: Delays, armMode: Option<Mode>)

  datatype Event = ArmModeChanged | DeviceAlarm(num: bv32) | TimerFired | OtherEvent

  /** History: the device alarm received since the last mode change, and the last way into InAlarm. */
  datatype History = History(cause: Option<bv32>, entryAt: int, alarmAt: int, delayInForce: int)

  datatype Alarm = Alarm(
    id: bv8, state: State, target: Mode,
    exitDelay: int, entryDelay: int, triggerDuration: int, armMask: bv32,
    timer: bool, tState: int,
    panel: u8, secondsRemaining: u8,
    config: Config, h: History)

  function MaskOf(m: Mode): bv32
  {
    match m
    case ModeDisarmed => 0
    case ModeStay => ARMED_STAY
    case ModeNight => ARMED_NIGHT
    case ModeAway => ARMED_AWAY
  }

  /** updateArmStateAndPanelStatus; an armed state with a disarmed target leaves the status alone. */
  function PanelStatus(a: Alarm): u8
  {
    match a.state
    case Disarmed => PANEL_DISARMED
    case Armed => (match a.target
      case ModeAway => PANEL_ARMED_AWAY
      case ModeStay => PANEL_ARMED_STAY
      case ModeNight => PANEL_ARMED_NIGHT
      case ModeDisarmed => a.panel)
    case Arming => (match a.target
      case ModeAway => PANEL_ARMING_AWAY
      case ModeStay => PANEL_ARMING_STAY
      case ModeNight => PANEL_ARMING_NIGHT
      case ModeDisarmed => a.panel)
    case InAlarm => PANEL_IN_ALARM
    case EntryDelay => PANEL_ENTRY_DELAY
    case ExitDelay => PANEL_EXIT_DELAY
  }

  function SetState(a: Alarm, s: State): Alarm
  {
    var a1 := a.(state := s);
    a1.(panel := PanelStatus(a1))
  }

  /** updateTargetStateValues; stay and night take the trigger duration from their exit delay item. */
  function UpdateTargetValues(a: Alarm): Alarm
  {
    var c := a.config;
    var d := match a.target case ModeDisarmed => c.disarmed case ModeStay => c.stay case ModeNight => c.night
                            case ModeAway => c.away;
    var trigger := match a.target case ModeDisarmed => 0 case ModeStay => c.stay.exit case ModeNight => c.night.exit
                                  case ModeAway => c.away.trigger;
    a.(exitDelay := d.exit, entryDelay := d.entry, triggerDuration := trigger, armMask := MaskOf(a.target))
  }

  /** setSecondsRemaining; a value that does not fit a byte is refused. */
  function SetSeconds(a: Alarm, secs: int): Alarm
  {
    if 0 <= secs < 256 then a.(secondsRemaining := secs) else a
  }

  function StartTimer(a: Alarm, now: int): Alarm { a.(timer := true, tState := now) }

  function OnExitDelay(a: Alarm, now: int): Alarm
  {
    var dt := now - a.tState;
    if a.exitDelay * 1000 < dt then
      var a1 := SetSeconds(a, 0).(timer := false);
      if a.target.ModeDisarmed? then SetState(a1, Disarmed) else SetState(StartTimer(a1, now), Arming)
    else SetSeconds(a, (a.exitDelay * 1000 - dt) / 1000)
  }

  function OnEntryDelay(a: Alarm, now: int): Alarm
  {
    var dt := now - a.tState;
    if a.entryDelay * 1000 < dt then
      SetState(StartTimer(SetSeconds(a, 0), now), InAlarm).(h := a.h.(alarmAt := now, delayInForce := a.entryDelay))
    else SetSeconds(a, (a.entryDelay * 1000 - dt) / 1000)
  }

  /** The event is addressed to this system and its device takes part in the current mode. */
  predicate Triggers(a: Alarm, num: bv32)
  {
    num & a.armMask != 0 && num & 0xFF == a.id as bv32
  }

  function OnArmed(a: Alarm, num: bv32, now: int): Alarm
  {
    if Triggers(a, num) then
      StartTimer(SetState(SetSeconds(a, a.entryDelay), EntryDelay), now).(h := a.h.(cause := Some(num), entryAt := now))
    else a
  }

  function OnInAlarm(a: Alarm, now: int): Alarm
  {
    if a.triggerDuration * 1000 < now - a.tState then SetState(a.(timer := false), Armed) else a
  }

  /** The current state's handler. */
  function OnState(a: Alarm, e: Event, now: int): Alarm
  {
    match a.state
    case Disarmed => a
    case ExitDelay => if e.TimerFired? then OnExitDelay(a, now) else a
    case Arming => if e.TimerFired? then SetState(a.(timer := false), Armed) else a
    case Armed => if e.DeviceAlarm? then OnArmed(a, e.num, now) else a
    case EntryDelay => if e.TimerFired? then OnEntryDelay(a, now) else a
    case InAlarm => if e.TimerFired? then OnInAlarm(a, now) else a
  }

  function ChangeMode(a: Alarm, m: Mode, now: int): Alarm
  {
    var a1 := UpdateTargetValues(a.(target := m));
    if a.target == m then a1
    else StartTimer(SetState(SetSeconds(a1, a1.exitDelay), ExitDelay), now).(h := a1.h.(cause := None))
  }

  /** AlarmSystem::handleEvent */
  function Handle(a: Alarm, e: Event, now: int): Alarm
  {
    if e.ArmModeChanged? then
      if a.config.armMode.Some? then ChangeMode(a, a.config.armMode.value, now) else a
    else OnState(a, e, now)
  }

  /** The constructor. */
  function New(id: bv8, config: Config): Alarm
  {
    UpdateTargetValues(Alarm(id, Disarmed, ModeDisarmed, 0, 0, 0, 0, false, 0, PANEL_NOT_READY, 0, config,
                             History(None, 0, 0, 0)))
  }

  /** AlarmSystem::start */
  function Start(a: Alarm): Alarm
  {
    var a1 := match a.config.armMode
      case None => a
      case Some(m) => SetState(a.(target := m), if m.ModeDisarmed? then Disarmed else Armed);
    UpdateTargetValues(a1.(panel := PanelStatus(a1)))
  }

  /** What a user may change at any time. */
  function SetConfig(a: Alarm, c: Config): Alarm { a.(config := c) }

  // ----- The invariant -----

  predicate Timed(s: State) { s in {ExitDelay, Arming, EntryDelay, InAlarm} }

  /** The panel status as a function of state and target. */
  function PanelOf(s: State, m: Mode): u8
  {
    match s
    case Disarmed => 0
    case ExitDelay => 4
    case EntryDelay => 5
    case InAlarm => 7
    case Armed => (match m case ModeStay => 1 case ModeNight => 2 case ModeAway => 3 case ModeDisarmed => 0)
    case Arming => (match m case ModeStay => 8 case ModeNight => 9 case ModeAway => 10 case ModeDisarmed => 0)
  }

  ghost predicate Inv(a: Alarm)
  {
    && (a.state.Disarmed? ==> a.target.ModeDisarmed?)
    && (a.state in {Arming, Armed, EntryDelay, InAlarm} ==> !a.target.ModeDisarmed?)
    && a.armMask == MaskOf(a.target)
    && a.panel == PanelOf(a.state, a.target)
    && (a.timer <==> Timed(a.state))
    && 0 <= a.exitDelay < 256 && 0 <= a.entryDelay < 256 && 0 <= a.triggerDuration < 256
    && Provenance(a)
  }

  /** An alarm has a cause, received in the current mode and meant for this system, and followed a full
      entry delay. */
  ghost predicate Provenance(a: Alarm)
  {
    && (a.state in {EntryDelay, InAlarm} ==> a.h.cause.Some? && Triggers(a, a.h.cause.value))
    && (a.state.EntryDelay? ==> a.tState == a.h.entryAt)
    && (a.state.InAlarm? ==> a.h.alarmAt - a.h.entryAt > 1000 * a.h.delayInForce && a.tState == a.h.alarmAt)
  }

  lemma StartEstablishes(id: bv8, config: Config)
    ensures Inv(Start(New(id, config)))
  {
  }

  /** New delays for the same mode do not matter to the invariant. */
  lemma SameModeKeeps(a: Alarm)
    requires Inv(a)
    ensures Inv(UpdateTargetValues(a))
  {
  }

  lemma NewModeKeeps(a: Alarm, now: int)
    requires 0 <= a.exitDelay < 256 && 0 <= a.entryDelay < 256 && 0 <= a.triggerDuration < 256
    requires a.armMask == MaskOf(a.target)
    ensures Inv(StartTimer(SetState(SetSeconds(a, a.exitDelay), ExitDelay), now).(h := a.h.(cause := None)))
  {
  }

  lemma ChangeModeKeeps(a: Alarm, m: Mode, now: int)
    requires Inv(a)
    ensures Inv(ChangeMode(a, m, now))
  {
    if a.target == m {
      SameModeKeeps(a);
    } else {
      NewModeKeeps(UpdateTargetValues(a.(target := m)), now);
    }
  }

  lemma ExitTickKeeps(a: Alarm, now: int)
    requires Inv(a) && a.state.ExitDelay?
    ensures Inv(OnExitDelay(a, now))
  {
  }

  lemma EntryTickKeeps(a: Alarm, now: int)
    requires Inv(a) && a.state.EntryDelay?
    ensures Inv(OnEntryDelay(a, now))
  {
  }

  lemma TickKeeps(a: Alarm, now: int)
    requires Inv(a) && a.timer
    ensures Inv(OnState(a, TimerFired, now))
  {
    match a.state
    case ExitDelay => ExitTickKeeps(a, now);
    case EntryDelay => EntryTickKeeps(a, now);
    case _ =>
  }

  lemma DeviceAlarmKeeps(a: Alarm, num: bv32, now: int)
    requires Inv(a) && a.state.Armed?
    ensures Inv(OnArmed(a, num, now))
  {
  }

  /** Every event at every time keeps the invariant. */
  lemma HandleKeeps(a: Alarm, e: Event, now: int)
    requires Inv(a) && (e.TimerFired? ==> a.timer)
    ensures Inv(Handle(a, e, now))
  {
    match e
    case ArmModeChanged => if a.config.armMode.Some? { ChangeModeKeeps(a, a.config.armMode.value, now); }
    case TimerFired => TickKeeps(a, now);
    case DeviceAlarm(num) => if a.state.Armed? { DeviceAlarmKeeps(a, num, now); }
    case OtherEvent =>
  }

  /** The seconds shown count down the delay in force: after a tick that does not end the delay they
      are the whole seconds left. */
  lemma SecondsLeft(a: Alarm, now: int)
    requires Inv(a) && now >= a.tState
    requires a.state.ExitDelay? || a.state.EntryDelay?
    ensures var r := Handle(a, TimerFired, now); var delay := if a.state.ExitDelay? then a.exitDelay else a.entryDelay;
      if r.state == a.state
      then now - a.tState <= 1000 * delay && r.secondsRemaining as int == (1000 * delay - (now - a.tState)) / 1000
      else now - a.tState > 1000 * delay && r.secondsRemaining == 0
  {
  }

  /** Stay and night mode never look at their trigger duration item. */
  lemma TriggerItemIgnored(a: Alarm, c: Config, stay: u8, night: u8)
    requires a.config == c
    ensures var d := c.(stay := c.stay.(trigger := stay), night := c.night.(trigger := night));
      UpdateTargetValues(a.(config := d)) == UpdateTargetValues(a).(config := d)
  {
  }
}

/** `class AlarmSystem`: the fields of AlarmSystem and its private data, and the event handlers that
    update them. */
module AlarmSystems {
  import opened Basics
  import opened AlarmDeviceTable
  import opened M = AlarmSystemMachine

  class AlarmSystem {
    const id: bv8
    var curState: State
    var targetState: Mode
    var exitDelay: int
    var entryDelay: int
    var triggerDuration: int
    var armMask: bv32
    var timer: bool
    var tState: int
    var panel: u8
    var secondsRemaining: u8
    var config: Config
    ghost var h: History

    ghost function View(): Alarm
      reads this
    {
      Alarm(id, curState, targetState, exitDelay, entryDelay, triggerDuration, armMask, timer, tState,
            panel, secondsRemaining, config, h)
    }

    constructor (id: bv8, config: Config)
      ensures View() == New(id, config)
    {
      this.id := id;
      curState, targetState := Disarmed, ModeDisarmed;
      timer, tState, panel, secondsRemaining := false, 0, PANEL_NOT_READY, 0;
      this.config, h := config, M.History(None, 0, 0, 0);
      new;
      UpdateTargetStateValues();
    }

    method SetState(s: State)
      modifies this`curState, this`panel
      ensures View() == M.SetState(old(View()), s)
    {
      if s != curState {
        curState := s;
      }
      UpdateArmStateAndPanelStatus();
    }

    method UpdateArmStateAndPanelStatus()
      modifies this`panel
      ensures View() == old(View()).(panel := PanelStatus(old(View())))
    {
      var status := panel;
      if curState == Disarmed {
        status := PANEL_DISARMED;
      } else if curState == Armed {
        if targetState == ModeAway { status := PANEL_ARMED_AWAY; }
        else if targetState == ModeStay { status := PANEL_ARMED_STAY; }
        else if targetState == ModeNight { status := PANEL_ARMED_NIGHT; }
      } else if curState == Arming {
        if targetState == ModeAway { status := PANEL_ARMING_AWAY; }
        else if targetState == ModeStay { status := PANEL_ARMING_STAY; }
        else if targetState == ModeNight { status := PANEL_ARMING_NIGHT; }
      } else if curState == InAlarm {
        status := PANEL_IN_ALARM;
      } else if curState == EntryDelay {
        status := PANEL_ENTRY_DELAY;
      } else {
        status := PANEL_EXIT_DELAY;
      }
      if status != panel {
        panel := status;
      }
    }

    method UpdateTargetStateValues()
      modifies this`exitDelay, this`entryDelay, this`triggerDuration, this`armMask
      ensures View() == UpdateTargetValues(old(View()))
    {
      match targetState {
        case ModeDisarmed =>
          exitDelay, entryDelay, triggerDuration := config.disarmed.exit, config.disarmed.entry, 0;
        case ModeStay =>
          exitDelay, entryDelay, triggerDuration := config.stay.exit, config.stay.entry, config.stay.exit;
        case ModeNight =>
          exitDelay, entryDelay, triggerDuration := config.night.exit, config.night.entry, config.night.exit;
        case ModeAway =>
          exitDelay, entryDelay, triggerDuration := config.away.exit, config.away.entry, config.away.trigger;
      }
      armMask := MaskOf(targetState);
    }

    method SetSecondsRemaining(secs: int)
      modifies this`secondsRemaining
      ensures View() == SetSeconds(old(View()), secs)
    {
      if 0 <= secs < 256 && secondsRemaining != secs {
        secondsRemaining := secs;
      }
    }

    method StartStateTimer(now: int)
      modifies this`timer, this`tState
      ensures View() == StartTimer(old(View()), now)
    {
      tState := now;
      timer := false;
      timer := true;
    }

    method StateExitDelay(now: int)
      modifies this
      ensures View() == OnExitDelay(old(View()), now)
    {
      var dt := now - tState;
      if exitDelay * 1000 < dt {
        SetSecondsRemaining(0);
        timer := false;
        if targetState == ModeDisarmed {
          SetState(Disarmed);
        } else {
          StartStateTimer(now);
          SetState(Arming);
        }
      } else {
        SetSecondsRemaining((exitDelay * 1000 - dt) / 1000);
      }
    }

    method StateEntryDelay(now: int)
      modifies this
      ensures View() == OnEntryDelay(old(View()), now)
    {
      var dt := now - tState;
      if entryDelay * 1000 < dt {
        SetSecondsRemaining(0);
        StartStateTimer(now);
        SetState(InAlarm);
        h := h.(alarmAt := now, delayInForce := entryDelay);
      } else {
        SetSecondsRemaining((entryDelay * 1000 - dt) / 1000);
      }
    }

    method StateArmed(num: bv32, now: int)
      modifies this
      ensures View() == OnArmed(old(View()), num, now)
    {
      if num & armMask == 0 {
      } else if num & 0xFF == id as bv32 {
        SetSecondsRemaining(entryDelay);
        SetState(EntryDelay);
        StartStateTimer(now);
        h := h.(cause := Some(num), entryAt := now);
      }
    }

    method StateInAlarm(now: int)
      modifies this
      ensures View() == OnInAlarm(old(View()), now)
    {
      if triggerDuration * 1000 < now - tState {
        timer := false;
        SetState(Armed);
      }
    }

    method ForwardToState(e: Event, now: int)
      modifies this
      ensures View() == OnState(old(View()), e, now)
    {
      match curState
      case Disarmed =>
      case ExitDelay => if e.TimerFired? { StateExitDelay(now); }
      case Arming =>
        if e.TimerFired? {
          timer := false;
          SetState(Armed);
        }
      case Armed => if e.DeviceAlarm? { StateArmed(e.num, now); }
      case EntryDelay => if e.TimerFired? { StateEntryDelay(now); }
      case InAlarm => if e.TimerFired? { StateInAlarm(now); }
    }

    method HandleEvent(e: Event, now: int)
      modifies this
      ensures View() == Handle(old(View()), e, now)
    {
      if e == ArmModeChanged {
        if config.armMode.None? {
          return;
        }
        var oldTargetState := targetState;
        targetState := config.armMode.value;
        UpdateTargetStateValues();
        if oldTargetState == targetState {
          return;
        }
        SetSecondsRemaining(exitDelay);
        SetState(ExitDelay);
        StartStateTimer(now);
        h := h.(cause := None);
      } else {
        ForwardToState(e, now);
      }
    }

    method StartSystem()
      modifies this
      ensures View() == Start(old(View()))
    {
      if config.armMode.Some? {
        targetState := config.armMode.value;
        SetState(if targetState == ModeDisarmed then Disarmed else Armed);
      }
      UpdateArmStateAndPanelStatus();
      UpdateTargetStateValues();
    }
  }
}
