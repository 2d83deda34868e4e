/** What each event does to an alarm system, told apart from the handlers, and how an alarm comes about over
    runs (alarm_system.cpp, alarm_system_event_handler.cpp). */
module AlarmLaws {
  import opened Basics
  import opened AlarmDeviceTable
  import opened AlarmSystemMachine
  import opened AlarmWorld

  /** The flag of a device entry that makes the device take part in the mode. */
  function ModeFlag(m: Mode): bv32
  {
    match m case ModeDisarmed => 0 case ModeAway => 0x0100 case ModeStay => 0x0200 case ModeNight => 0x0400
  }

  /** The panel status of a system that is armed in the mode (IAS ACE, ZCL 07-5123-06 section 8.3). */
  function ArmedPanel(m: Mode): u8
  {
    match m case ModeDisarmed => 0 case ModeStay => 1 case ModeNight => 2 case ModeAway => 3
  }

  lemma MaskLaw()
    ensures forall m :: MaskOf(m) == ModeFlag(m)
  {
  }

  // ----- Events of an armed system -----

  /** The device of the entry belongs to the system and takes part in its current mode. */
  predicate Concerns(e: Entry, a: Alarm)
  {
    e.alarmSystemId == a.id && e.flags & ModeFlag(a.target) != 0
  }

  /** An armed system reacts to the alarm of a device exactly when the device concerns it: the entry delay
      starts, and the panel shows it. */
  lemma ArmedLaw(a: Alarm, e: Entry, now: int)
    requires Inv(a) && a.state.Armed?
    ensures Handle(a, DeviceAlarm(Pack(e)), now) ==
      if Concerns(e, a) then
        a.(state := EntryDelay, timer := true, tState := now, panel := 5, secondsRemaining := a.entryDelay,
           h := a.h.(cause := Some(Pack(e)), entryAt := now))
      else a
  {
    ConcernsLaw(a, e);
    hide Triggers, Pack, MaskOf, Concerns, PanelOf;
  }

  lemma ConcernsLaw(a: Alarm, e: Entry)
    requires Inv(a)
    ensures Triggers(a, Pack(e)) <==> Concerns(e, a)
  {
    MaskLaw();
    TriggeredBy(a, e);
    hide Triggers, Pack, MaskOf, ModeFlag;
  }

  /** The entry delay counts down and ends in the alarm. */
  lemma EntryDelayLaw(a: Alarm, now: int)
    requires Inv(a) && a.state.EntryDelay? && a.tState <= now
    ensures Handle(a, TimerFired, now) ==
      if now - a.tState > 1000 * a.entryDelay then
        a.(state := InAlarm, timer := true, tState := now, panel := 7, secondsRemaining := 0,
           h := a.h.(alarmAt := now, delayInForce := a.entryDelay))
      else a.(secondsRemaining := (1000 * a.entryDelay - (now - a.tState)) / 1000)
  {
    hide Triggers, MaskOf;
  }

  /** After the trigger duration the system is armed again, and not before. */
  lemma InAlarmLaw(a: Alarm, now: int)
    requires Inv(a) && a.state.InAlarm?
    ensures Handle(a, TimerFired, now) ==
      if now - a.tState > 1000 * a.triggerDuration then
        a.(state := Armed, timer := false, panel := ArmedPanel(a.target))
      else a
  {
    hide Triggers, MaskOf;
  }

  /** The exit delay counts down and leads to Disarmed, or through Arming to Armed. */
  lemma ExitDelayLaw(a: Alarm, now: int)
    requires Inv(a) && a.state.ExitDelay? && a.tState <= now
    ensures Handle(a, TimerFired, now) ==
      if now - a.tState <= 1000 * a.exitDelay then
        a.(secondsRemaining := (1000 * a.exitDelay - (now - a.tState)) / 1000)
      else if a.target.ModeDisarmed? then a.(state := Disarmed, timer := false, panel := 0, secondsRemaining := 0)
      else a.(state := Arming, timer := true, tState := now, panel := ArmedPanel(a.target) + 7, secondsRemaining := 0)
  {
    hide Triggers, MaskOf;
  }

  lemma ArmingLaw(a: Alarm, now: int)
    requires Inv(a) && a.state.Arming?
    ensures Handle(a, TimerFired, now) == a.(state := Armed, timer := false, panel := ArmedPanel(a.target))
  {
    hide Triggers, MaskOf;
  }

  /** The events that a state takes notice of, besides a change of the mode. */
  predicate Heeds(s: State, e: Event)
  {
    match s
    case Disarmed => false
    case Armed => e.DeviceAlarm?
    case _ => e.TimerFired?
  }

  lemma OtherEventsLaw(a: Alarm, e: Event, now: int)
    requires !e.ArmModeChanged? && !Heeds(a.state, e)
    ensures Handle(a, e, now) == a
  {
  }

  // ----- Modes -----

  /** The delays of a mode; stay and night show their alarm for as long as their exit delay. */
  predicate HasDelaysOf(a: Alarm, m: Mode)
  {
    var c := a.config;
    && a.armMask == ModeFlag(m)
    && match m
       case ModeDisarmed =>
         a.exitDelay == c.disarmed.exit && a.entryDelay == c.disarmed.entry && a.triggerDuration == 0
       case ModeStay => a.exitDelay == c.stay.exit && a.entryDelay == c.stay.entry && a.triggerDuration == c.stay.exit
       case ModeNight =>
         a.exitDelay == c.night.exit && a.entryDelay == c.night.entry && a.triggerDuration == c.night.exit
       case ModeAway =>
         a.exitDelay == c.away.exit && a.entryDelay == c.away.entry && a.triggerDuration == c.away.trigger
  }

  /** A new mode starts the exit delay of that mode; the same mode again only renews the delays. */
  lemma ModeLaw(a: Alarm, m: Mode, now: int)
    requires a.config.armMode == Some(m)
    ensures var r := Handle(a, ArmModeChanged, now);
      && r.target == m && r.config == a.config && r.id == a.id && HasDelaysOf(r, m)
      && if a.target == m then
           r == a.(exitDelay := r.exitDelay, entryDelay := r.entryDelay, triggerDuration := r.triggerDuration,
                   armMask := r.armMask)
         else
           r.state.ExitDelay? && r.timer && r.tState == now && r.panel == 4 && r.secondsRemaining == r.exitDelay
           && r.h == a.h.(cause := None)
  {
  }

  lemma UnknownModeLaw(a: Alarm, now: int)
    requires a.config.armMode == None
    ensures Handle(a, ArmModeChanged, now) == a
  {
  }

  /** The start takes the configured mode over at once. */
  lemma StartLaw(id: bv8, config: Config)
    ensures var a := Start(New(id, config));
      var m := if config.armMode.Some? then config.armMode.value else ModeDisarmed;
      && a.id == id && a.config == config && a.target == m && HasDelaysOf(a, m) && !a.timer
      && a.state == (if m.ModeDisarmed? then Disarmed else Armed) && a.panel == ArmedPanel(m)
  {
  }

  // ----- From a device event to the alarm -----

  /** The device events that can raise an alarm. */
  predicate IsAlarming(e: DeviceEvent)
  {
    || (e.resource.Sensors? && e.what in {Presence, Open, Vibration} && e.num >= 1)
    || (e.resource.Sensors? && e.what.ButtonEvent?)
    || (e.resource.Sensors? && e.what.Action? && e.num in {2, 3, 4})
    || (e.resource.Lights? && e.what.On? && e.num >= 1)
  }

  /** The event is queued once for a valid entry of the table, and nothing else happens. */
  lemma DeviceEventLaw(w: World, ev: DeviceEvent)
    ensures var r := Next(w, Device(ev)); r.systems == w.systems && r.store == w.store
    ensures IsAlarming(ev) && ev.hasItem && ev.uniqueId.Some? ==>
      var e := Get(w.store.table, ExtAddress(ev.uniqueId.value));
      e.uniqueId != "" && e.alarmSystemId != 0 && e.extAddress != 0 ==>
        DeviceAlarm(Pack(e)) in Next(w, Device(ev)).queue
        && (DeviceAlarm(Pack(e)) !in w.queue ==> Next(w, Device(ev)).queue == w.queue + [DeviceAlarm(Pack(e))])
    ensures Next(w, Device(ev)) != w ==>
      && IsAlarming(ev) && ev.hasItem && ev.uniqueId.Some?
      && IsValid(Get(w.store.table, ExtAddress(ev.uniqueId.value)))
  {
    hide Pack, ExtAddress, Get;
  }

  /** Every system gets the event at the head of the queue. */
  lemma DeliverLaw(w: World, now: int)
    requires w.queue != []
    ensures var r := Next(w, Deliver(now));
      && r.queue == w.queue[1..] && r.store == w.store && |r.systems| == |w.systems|
      && forall k :: 0 <= k < |r.systems| ==> r.systems[k] == Handle(w.systems[k], w.queue[0], now)
  {
    hide Handle;
  }

  lemma TickLaw(w: World, k: nat, now: int)
    requires k < |w.systems|
    ensures var a := w.systems[k];
      Next(w, Tick(k, now)) == w.(systems := w.systems[k := if a.timer then Handle(a, TimerFired, now) else a])
  {
    hide Handle;
    assert w.systems[k := w.systems[k]] == w.systems;
  }

  /** A change of the configuration is announced to the systems. */
  lemma ConfigureLaw(w: World, k: nat, config: Config)
    requires k < |w.systems|
    ensures var r := Next(w, Configure(k, config));
      && r.systems == w.systems[k := w.systems[k].(config := config)] && ArmModeChanged in r.queue
      && (ArmModeChanged !in w.queue ==> r.queue == w.queue + [ArmModeChanged])
  {
  }

  lemma RunMore(configs: seq<(bv8, Config)>, steps: seq<Step>, step: Step)
    ensures Run(configs, steps + [step]) == Next(Run(configs, steps), step)
  {
    assert (steps + [step])[..|steps|] == steps;
  }

  /** The device event that reaches an armed system. */
  ghost predicate Alarms(w: World, k: nat, ev: DeviceEvent)
  {
    && k < |w.systems| && w.systems[k].state.Armed?
    && IsAlarming(ev) && ev.hasItem && ev.uniqueId.Some?
    && var e := Get(w.store.table, ExtAddress(ev.uniqueId.value)); IsValid(e) && Concerns(e, w.systems[k])
  }

  /** The k-th system after a run, if there is one. */
  function After(configs: seq<(bv8, Config)>, steps: seq<Step>, k: nat): Option<Alarm>
  {
    var systems := Run(configs, steps).systems;
    if k < |systems| then Some(systems[k]) else None
  }

  predicate IsIn(a: Option<Alarm>, s: State, timer: bool, m: Mode, panel: u8)
  {
    a.Some? && a.value.state == s && a.value.timer == timer && a.value.target == m && a.value.panel == panel
  }

  /** Main result on alarms, the counterpart of AlarmProvenance: from every reachable state with nothing queued,
      an alarming event of a device that concerns an armed system starts its entry delay; the first tick
      after the delay raises the alarm, and the first tick after the trigger duration ends it. */
  lemma AlarmIsRaised(configs: seq<(bv8, Config)>, steps: seq<Step>, k: nat, ev: DeviceEvent,
      entered: int, raised: int, ended: int)
    requires var w := Run(configs, steps);
      && w.queue == [] && Alarms(w, k, ev)
      && raised - entered > 1000 * w.systems[k].entryDelay && ended - raised > 1000 * w.systems[k].triggerDuration
    ensures var a := Run(configs, steps).systems[k];
      var s1 := steps + [Device(ev)] + [Deliver(entered)];
      var s2, s3 := s1 + [Tick(k, raised)], s1 + [Tick(k, raised)] + [Tick(k, ended)];
      && IsIn(After(configs, s1, k), EntryDelay, true, a.target, 5)
      && After(configs, s1, k).value.secondsRemaining == a.entryDelay
      && IsIn(After(configs, s2, k), InAlarm, true, a.target, 7)
      && IsIn(After(configs, s3, k), Armed, false, a.target, ArmedPanel(a.target))
  {
    var s1 := steps + [Device(ev)] + [Deliver(entered)];
    RunMore(configs, steps, Device(ev));
    RunMore(configs, steps + [Device(ev)], Deliver(entered));
    RunMore(configs, s1, Tick(k, raised));
    RunMore(configs, s1 + [Tick(k, raised)], Tick(k, ended));
    Reachable(configs, steps);
    hide Run, WorldInv;
    var w := Run(configs, steps);
    assert Inv(w.systems[k]) by { SystemInv(configs, steps, k); }
    var w1 := DeviceIsHeard(w, k, ev, entered);
    Reachable(configs, s1);
    Reachable(configs, s1 + [Tick(k, raised)]);
    SystemInv(configs, s1, k);
    SystemInv(configs, s1 + [Tick(k, raised)], k);
    TickLaw(w1, k, raised);
    EntryDelayLaw(w1.systems[k], raised);
    var w2 := Next(w1, Tick(k, raised));
    TickLaw(w2, k, ended);
    InAlarmLaw(w2.systems[k], ended);
  }

  lemma SystemInv(configs: seq<(bv8, Config)>, steps: seq<Step>, k: nat)
    requires k < |Run(configs, steps).systems|
    ensures Inv(Run(configs, steps).systems[k])
  {
    Reachable(configs, steps);
  }

  lemma DeviceIsHeard(w: World, k: nat, ev: DeviceEvent, now: int) returns (r: World)
    requires w.queue == [] && Alarms(w, k, ev) && Inv(w.systems[k])
    ensures r == Next(Next(w, Device(ev)), Deliver(now)) && |r.systems| == |w.systems|
    ensures var a := w.systems[k];
      exists cause :: r.systems[k] == a.(state := EntryDelay, timer := true, tState := now, panel := 5,
        secondsRemaining := a.entryDelay, h := a.h.(cause := cause, entryAt := now))
  {
    var e := Get(w.store.table, ExtAddress(ev.uniqueId.value));
    DeviceEventLaw(w, ev);
    var w1 := Next(w, Device(ev));
    DeliverLaw(w1, now);
    ArmedLaw(w.systems[k], e, now);
    r := Next(w1, Deliver(now));
    hide Next, Handle, Pack;
    assert w1.queue == [DeviceAlarm(Pack(e))];
  }

  function ExitDelayOf(c: Config, m: Mode): int
  {
    match m case ModeDisarmed => c.disarmed.exit case ModeStay => c.stay.exit case ModeNight => c.night.exit
            case ModeAway => c.away.exit
  }

  /** Main result on arming: a new mode is in force after its exit delay, from any reachable state with nothing
      queued. */
  lemma ModeIsReached(configs: seq<(bv8, Config)>, steps: seq<Step>, k: nat, config: Config, m: Mode,
      changed: int, left: int, armed: int)
    requires var w := Run(configs, steps);
      && w.queue == [] && k < |w.systems| && config.armMode == Some(m) && w.systems[k].target != m
    requires left - changed > 1000 * ExitDelayOf(config, m)
    ensures var s1 := steps + [Configure(k, config)] + [Deliver(changed)];
      var s2, s3 := s1 + [Tick(k, left)], s1 + [Tick(k, left)] + [Tick(k, armed)];
      && IsIn(After(configs, s1, k), ExitDelay, true, m, 4)
      && (m.ModeDisarmed? ==> IsIn(After(configs, s2, k), Disarmed, false, m, 0))
      && (!m.ModeDisarmed? ==> IsIn(After(configs, s2, k), Arming, true, m, ArmedPanel(m) + 7))
      && (m.ModeDisarmed? ==> IsIn(After(configs, s3, k), Disarmed, false, m, 0))
      && (!m.ModeDisarmed? ==> IsIn(After(configs, s3, k), Armed, false, m, ArmedPanel(m)))
  {
    var s1 := steps + [Configure(k, config)] + [Deliver(changed)];
    RunMore(configs, steps, Configure(k, config));
    RunMore(configs, steps + [Configure(k, config)], Deliver(changed));
    RunMore(configs, s1, Tick(k, left));
    RunMore(configs, s1 + [Tick(k, left)], Tick(k, armed));
    hide Run;
    var w := Run(configs, steps);
    ConfigureLaw(w, k, config);
    var w0 := Next(w, Configure(k, config));
    DeliverLaw(w0, changed);
    ModeLaw(w0.systems[k], m, changed);
    var w1 := Next(w0, Deliver(changed));
    SystemInv(configs, s1, k);
    TickLaw(w1, k, left);
    ExitDelayLaw(w1.systems[k], left);
    var w2 := Next(w1, Tick(k, left));
    SystemInv(configs, s1 + [Tick(k, left)], k);
    TickLaw(w2, k, armed);
    hide Handle, Next, Inv;
    if !m.ModeDisarmed? {
      ArmingLaw(w2.systems[k], armed);
    }
  }
}
