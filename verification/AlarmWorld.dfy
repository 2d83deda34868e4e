/** Device events, alarm events and several alarm systems together (alarm_system_event_handler.cpp). */
module AlarmWorld {
  import opened Basics
  import opened AlarmDeviceTable
  import opened AlarmSystemMachine
  import opened AlarmSystems

  const MODE_FLAGS: bv32 := 0x0700
  const CMD_EMERGENCY := 2
  const CMD_PANIC := 4

  datatype Resource = Sensors | Lights | OtherResource
  datatype What = Presence | Open | Vibration | ButtonEvent | Action | On | OtherWhat

  /** A state change of a device; `uniqueId` is None when the resource or its id is unknown. */
  datatype DeviceEvent = DeviceEvent(resource: Resource, what: What, num: int, uniqueId: Option<string>, hasItem: bool)

  /** isAlarmSystemDeviceEvent */
  predicate IsAlarmSystemDeviceEvent(e: DeviceEvent)
  {
    match e.resource
    case Sensors => (match e.what
      case Presence | Open | Vibration => e.num > 0
      case ButtonEvent => true
      case Action => CMD_EMERGENCY <= e.num <= CMD_PANIC
      case _ => false)
    case Lights => e.what.On? && e.num > 0
    case OtherResource => false
  }

  /** The number of a REventDeviceAlarm: the alarm system id and the mode flags of the device. */
  function Pack(e: Entry): bv32
  {
    (e.alarmSystemId as bv32) | (e.flags & MODE_FLAGS)
  }

  /** The packed number decodes back to the id and the mode flags, so a system reacts exactly to the
      devices that belong to it and take part in its current mode. */
  lemma PackDecodes(e: Entry)
    ensures Pack(e) & 0xFF == e.alarmSystemId as bv32
    ensures Pack(e) & MODE_FLAGS == e.flags & MODE_FLAGS
  {
    PackedBits(e.alarmSystemId as bv32, e.flags);
  }

  lemma PackedBits(id: bv32, flags: bv32)
    requires id & 0xFF == id
    ensures (id | (flags & MODE_FLAGS)) & 0xFF == id
    ensures (id | (flags & MODE_FLAGS)) & MODE_FLAGS == flags & MODE_FLAGS
  {
  }

  lemma MaskWithin(num: bv32, flags: bv32, m: Mode)
    requires num & MODE_FLAGS == flags & MODE_FLAGS
    ensures num & MaskOf(m) == flags & MaskOf(m)
  {
    match m
    case ModeDisarmed => assert num & 0 == 0 && flags & 0 == 0;
    case ModeStay =>
      assert num & 0x0200 == (num & MODE_FLAGS) & 0x0200;
      assert flags & 0x0200 == (flags & MODE_FLAGS) & 0x0200;
    case ModeNight =>
      assert num & 0x0400 == (num & MODE_FLAGS) & 0x0400;
      assert flags & 0x0400 == (flags & MODE_FLAGS) & 0x0400;
    case ModeAway =>
      assert num & 0x0100 == (num & MODE_FLAGS) & 0x0100;
      assert flags & 0x0100 == (flags & MODE_FLAGS) & 0x0100;
  }

  /** A system in the Armed state is triggered by the alarm of a device exactly when the device belongs to
      it and has the flag of the current mode. */
  lemma TriggeredBy(a: Alarm, e: Entry)
    requires a.armMask == MaskOf(a.target)
    ensures Triggers(a, Pack(e)) <==> e.alarmSystemId == a.id && e.flags & MaskOf(a.target) != 0
  {
    PackDecodes(e);
    MaskWithin(Pack(e), e.flags, a.target);
    SameByte(e.alarmSystemId, a.id);
  }

  lemma SameByte(a: bv8, b: bv8)
    ensures a as bv32 == b as bv32 <==> a == b
  {
  }

  // ----- The world and its runs -----

  /** `sources` is history: every table entry whose device event became an alarm event. */
  datatype World = World(systems: seq<Alarm>, store: Store, queue: seq<Event>, sources: set<Entry>)

  datatype Step =
    | Device(event: DeviceEvent)                   // a sensor or light reports a state change
    | Deliver(now: int)                            // the next queued event reaches every alarm system
    | Tick(index: nat, now: int)                   // the timer of one system fires
    | Configure(index: nat, config: Config)        // REST changes config items and announces the mode
    | Table(op: Op, dbOk: bool)

  function Enqueue(queue: seq<Event>, e: Event): seq<Event>
  {
    if e in queue then queue else queue + [e]
  }

  /** AS_HandleAlarmSystemDeviceEvent */
  function OnDevice(w: World, e: DeviceEvent): World
  {
    if !IsAlarmSystemDeviceEvent(e) || e.uniqueId.None? then w else
    var entry := Get(w.store.table, ExtAddress(e.uniqueId.value));
    if !IsValid(entry) || !e.hasItem then w
    else w.(queue := Enqueue(w.queue, DeviceAlarm(Pack(entry))), sources := w.sources + {entry})
  }

  /** AS_HandleAlarmSystemEvent: every system sees every event. */
  function HandleAll(systems: seq<Alarm>, e: Event, now: int): (r: seq<Alarm>)
    ensures |r| == |systems|
    ensures forall k :: 0 <= k < |r| ==> r[k] == Handle(systems[k], e, now)
  {
    if systems == [] then [] else [Handle(systems[0], e, now)] + HandleAll(systems[1..], e, now)
  }

  function Next(w: World, step: Step): World
  {
    match step
    case Device(e) => OnDevice(w, e)
    case Deliver(now) =>
      if w.queue == [] then w else w.(systems := HandleAll(w.systems, w.queue[0], now), queue := w.queue[1..])
    case Tick(k, now) =>
      if k < |w.systems| && w.systems[k].timer then w.(systems := w.systems[k := Handle(w.systems[k], TimerFired,
          now)]) else w
    case Configure(k, config) =>
      if k < |w.systems|
      then w.(systems := w.systems[k := SetConfig(w.systems[k], config)], queue := Enqueue(w.queue, ArmModeChanged))
      else w
    case Table(op, dbOk) => w.(store := Apply(w.store, op, dbOk))
  }

  /** Alarm systems as they are loaded and started, with an empty device table. */
  function Started(configs: seq<(bv8, Config)>): World
  {
    World(seq(|configs|, k requires 0 <= k < |configs| => Start(New(configs[k].0, configs[k].1))), Store([], map[]),
        [], {})
  }

  function Run(configs: seq<(bv8, Config)>, steps: seq<Step>): World
  {
    if steps == [] then Started(configs) else Next(Run(configs, steps[..|steps| - 1]), steps[|steps| - 1])
  }

  /** The number is the packed alarm of a device that was valid in the table when its event arrived. */
  ghost predicate FromTable(num: bv32, sources: set<Entry>)
  {
    exists e :: e in sources && IsValid(e) && Pack(e) == num
  }

  ghost predicate WorldInv(w: World)
  {
    && (forall k :: 0 <= k < |w.systems| ==> Inv(w.systems[k]))
    && (forall k :: 0 <= k < |w.systems| && w.systems[k].h.cause.Some? ==>
        FromTable(w.systems[k].h.cause.value, w.sources))
    && (forall e :: e in w.queue ==> !e.TimerFired?)
    && (forall e :: e in w.queue && e.DeviceAlarm? ==> FromTable(e.num, w.sources))
  }

  lemma CauseIsReceived(a: Alarm, e: Event, now: int)
    ensures var r := Handle(a, e, now);
      r.h.cause.Some? ==> r.h.cause == a.h.cause || (e.DeviceAlarm? && r.h.cause == Some(e.num))
  {
  }

  lemma DeliverKeeps(w: World, now: int)
    requires WorldInv(w) && w.queue != []
    ensures WorldInv(Next(w, Deliver(now)))
  {
    var e := w.queue[0];
    var r := Next(w, Deliver(now));
    assert forall x :: x in r.queue ==> x in w.queue;
    forall k | 0 <= k < |r.systems|
      ensures Inv(r.systems[k])
      ensures r.systems[k].h.cause.Some? ==> FromTable(r.systems[k].h.cause.value, r.sources)
    {
      HandleKeeps(w.systems[k], e, now);
      CauseIsReceived(w.systems[k], e, now);
    }
  }

  lemma DeviceKeeps(w: World, e: DeviceEvent)
    requires WorldInv(w)
    ensures WorldInv(OnDevice(w, e))
  {
    var r := OnDevice(w, e);
    assert forall num :: FromTable(num, w.sources) ==> FromTable(num, r.sources);
  }

  /** One system changes and nothing becomes a cause that was none. */
  lemma ReplaceKeeps(w: World, k: nat, a: Alarm)
    requires WorldInv(w) && k < |w.systems|
    requires Inv(a) && (a.h.cause.Some? ==> a.h.cause == w.systems[k].h.cause)
    ensures WorldInv(w.(systems := w.systems[k := a]))
  {
    hide Inv, FromTable;
  }

  lemma TickKeeps(w: World, k: nat, now: int)
    requires WorldInv(w)
    ensures WorldInv(Next(w, Tick(k, now)))
  {
    if k < |w.systems| && w.systems[k].timer {
      HandleKeeps(w.systems[k], TimerFired, now);
      CauseIsReceived(w.systems[k], TimerFired, now);
      ReplaceKeeps(w, k, Handle(w.systems[k], TimerFired, now));
    }
    hide Handle, WorldInv, Inv;
  }

  lemma ConfigKeeps(a: Alarm, config: Config)
    requires Inv(a)
    ensures Inv(SetConfig(a, config))
  {
  }

  lemma AnnounceKeeps(w: World)
    requires WorldInv(w)
    ensures WorldInv(w.(queue := Enqueue(w.queue, ArmModeChanged)))
  {
    hide Inv, FromTable;
  }

  lemma ConfigureKeeps(w: World, k: nat, config: Config)
    requires WorldInv(w)
    ensures WorldInv(Next(w, Configure(k, config)))
  {
    if k < |w.systems| {
      ConfigKeeps(w.systems[k], config);
      ReplaceKeeps(w, k, SetConfig(w.systems[k], config));
      AnnounceKeeps(w.(systems := w.systems[k := SetConfig(w.systems[k], config)]));
    }
    hide WorldInv, SetConfig, Inv, Enqueue;
  }

  lemma TableKeeps(w: World, store: Store)
    requires WorldInv(w)
    ensures WorldInv(w.(store := store))
  {
    hide Inv, FromTable;
  }

  lemma StepKeeps(w: World, step: Step)
    requires WorldInv(w)
    ensures WorldInv(Next(w, step))
  {
    hide WorldInv, Handle, OnDevice, HandleAll, Apply, Enqueue;
    match step
    case Device(e) => DeviceKeeps(w, e);
    case Deliver(now) => if w.queue != [] { DeliverKeeps(w, now); }
    case Tick(k, now) => TickKeeps(w, k, now);
    case Configure(k, config) => ConfigureKeeps(w, k, config);
    case Table(op, dbOk) => TableKeeps(w, Apply(w.store, op, dbOk));
  }

  lemma {:induction false} Reachable(configs: seq<(bv8, Config)>, steps: seq<Step>)
    ensures WorldInv(Run(configs, steps))
  {
    if steps == [] {
      forall k | 0 <= k < |configs|
        ensures Inv(Start(New(configs[k].0, configs[k].1)))
      {
        StartEstablishes(configs[k].0, configs[k].1);
      }
    } else {
      Reachable(configs, steps[..|steps| - 1]);
      StepKeeps(Run(configs, steps[..|steps| - 1]), steps[|steps| - 1]);
    }
  }

  // ----- Main results -----

  /** In every reachable state of every system: a disarmed state has a disarmed target and an armed one an
      armed target, the mask and the panel follow state and target, and the timer runs exactly in the four
      timed states. */
  lemma AlarmInvariant(configs: seq<(bv8, Config)>, steps: seq<Step>, k: nat)
    requires k < |Run(configs, steps).systems|
    ensures var a := Run(configs, steps).systems[k];
      && (a.state.Disarmed? ==> a.target.ModeDisarmed?)
      && (a.state in {Arming, Armed, EntryDelay, InAlarm} ==> !a.target.ModeDisarmed?)
      && a.armMask == MaskOf(a.target)
      && a.panel == PanelOf(a.state, a.target)
      && (a.timer <==> a.state in {ExitDelay, Arming, EntryDelay, InAlarm})
  {
    Reachable(configs, steps);
  }

  /** A system in alarm received, since its last mode change, the alarm of a device that was in the table
      for this very system with the flag of the current mode, and the alarm was raised only after more
      than the entry delay in force had passed since. */
  lemma AlarmProvenance(configs: seq<(bv8, Config)>, steps: seq<Step>, k: nat)
    requires k < |Run(configs, steps).systems|
    requires Run(configs, steps).systems[k].state.InAlarm?
    ensures var w := Run(configs, steps); var a := w.systems[k];
      && (exists e :: e in w.sources && IsValid(e) && a.h.cause == Some(Pack(e))
                      && e.alarmSystemId == a.id && e.flags & MaskOf(a.target) != 0)
      && a.h.alarmAt - a.h.entryAt > 1000 * a.h.delayInForce
  {
    Reachable(configs, steps);
    CausedInWorld(Run(configs, steps), k);
  }

  lemma CausedInWorld(w: World, k: nat)
    requires WorldInv(w) && k < |w.systems| && w.systems[k].state.InAlarm?
    ensures var a := w.systems[k];
      && (exists e :: e in w.sources && IsValid(e) && a.h.cause == Some(Pack(e))
                      && e.alarmSystemId == a.id && e.flags & MaskOf(a.target) != 0)
      && a.h.alarmAt - a.h.entryAt > 1000 * a.h.delayInForce
  {
    var a := w.systems[k];
    AlarmIsCaused(a);
    hide Inv, Triggers, Pack, MaskOf;
    var e :| e in w.sources && IsValid(e) && Pack(e) == a.h.cause.value;
    TriggeredBy(a, e);
  }

  lemma AlarmIsCaused(a: Alarm)
    requires Inv(a) && a.state.InAlarm?
    ensures a.armMask == MaskOf(a.target) && a.h.cause.Some? && Triggers(a, a.h.cause.value)
    ensures a.h.alarmAt - a.h.entryAt > 1000 * a.h.delayInForce
  {
    hide MaskOf, Triggers, PanelOf;
  }

  /** Sources are devices of the table: a step adds at most the entry found for the reporting device. */
  lemma SourcesAreEntries(w: World, step: Step, e: Entry)
    requires e in Next(w, step).sources && e !in w.sources
    ensures step.Device? && IsAlarmSystemDeviceEvent(step.event) && e in w.store.table && IsValid(e)
  {
  }

  /** AS_HandleAlarmSystemEvent over the alarm system objects. */
  method HandleAlarmSystemEvent(systems: seq<AlarmSystem>, e: Event, now: int)
    requires forall i, j :: 0 <= i < j < |systems| ==> systems[i] != systems[j]
    modifies systems
    ensures forall k :: 0 <= k < |systems| ==> systems[k].View() == Handle(old(systems[k].View()), e, now)
  {
    for i := 0 to |systems|
      invariant forall k :: 0 <= k < i ==> systems[k].View() == Handle(old(systems[k].View()), e, now)
      invariant forall k :: i <= k < |systems| ==> systems[k].View() == old(systems[k].View())
    {
      systems[i].HandleEvent(e, now);
    }
  }

  /** AS_HandleAlarmSystemDeviceEvent over the device table object. */
  method HandleAlarmSystemDeviceEvent(e: DeviceEvent, devTable: DeviceTable, queue: seq<Event>) returns (r: seq<Event>)
    ensures r == OnDevice(World([], devTable.View(), queue, {}), e).queue
  {
    r := queue;
    if !IsAlarmSystemDeviceEvent(e) || e.uniqueId.None? {
      return;
    }
    var entry := devTable.GetEntry(ExtAddress(e.uniqueId.value));
    if IsValid(entry) && e.hasItem {
      var eventData := entry.alarmSystemId as bv32;
      eventData := eventData | (entry.flags & (ARMED_AWAY | ARMED_STAY | ARMED_NIGHT));
      r := Enqueue(r, DeviceAlarm(eventData));
    }
  }
}
