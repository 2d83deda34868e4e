/** Types shared by the parts of the device supervisor: handlers, events and what the outside world
    answers (the declarations at the top of device.cpp, zcl.h and zdp.h). */
module DeviceData {
  import opened Basics
  import opened ReportCheck

  const MAX_RECORDS := 6           // of ZCL_ReadReportConfigurationParam and ZCL_ConfigureReportingParam
  const MAX_POLL_RETRIES := 3
  const BUSY_MARK := 21            // MarkZclConfigureBusy
  const RECHECK_MS := 3600 * 1000
  const REBIND_SECONDS := 1800
  const MAX_UNCONFIRMED := 4

  const ZDP_SUCCESS: u8 := 0x00
  const ZDP_NOT_SUPPORTED: u8 := 0x84
  const ZDP_NOT_PERMITTED: u8 := 0x8D
  const ZCL_SUCCESS: u8 := 0x00

  datatype Level = Level0 | Level1 | Level2

  /** Handlers of state level 0. */
  datatype Top = NoTop | Init | NodeDescriptor | ActiveEndpoints | SimpleDescriptor | BasicCluster
               | GetDeviceDescription | Idle | Dead | Zgp

  /** Handlers of level 1, the bindings sub-machine. */
  datatype Bind = NoBind | BindingHandler | TableRead | TableVerify | BindingCreate | BindingRemove
                | ReadReport | ReadNext | ConfigNext | ConfigureReporting | BindingIdle

  /** Handlers of level 2, the polling sub-machine. */
  datatype Poll = NoPoll | PollIdle | PollNext | PollBusy

  /** Events that travel through the normal queue. */
  datatype Event =
    | EvPoll | EvAwake | EvBindingTick | EvPollDone
    | EvReachable                                        // config/reachable, state/reachable, state/lastupdated
    | EvNodeDescriptor | EvActiveEndpoints | EvSimpleDescriptor | EvBasicAttribute
    | EvDDFInitRequest | EvDDFInitResponse(num: int) | EvDDFReload | EvZdpReload
    | EvApsConfirm(apsReqId: u8, confirmed: bool)
    | EvZdpResponse(zdpSeq: u8, accepted: bool)
    | EvMgmtBindResponse(data: Option<seq<u8>>)          // None: the shared event buffer was reused
    | EvReportConfig(response: Option<Response>)
    | EvZclResponse(clusterId: nat, sequenceNumber: u8, status: u8)
    | EvBindingTable(status: u8)
    | EvOther

  /** What a handler is called with: a state event of its machine or a queued event. */
  datatype Message = Enter(level: Level) | Timeout(level: Level) | Ev(event: Event)

  datatype ZdpResult = ZdpResult(isEnqueued: bool, apsReqId: u8, zdpSeq: u8)
  datatype ZclResult = ZclResult(isEnqueued: bool, apsReqId: u8, sequenceNumber: u8)
  datatype ReadResult = ReadResult(isEnqueued: bool, ignoreSequence: bool, apsReqId: u8, sequenceNumber: u8,
      clusterId: nat)

  const NO_ZDP := ZdpResult(false, 0, 0)
  const NO_ZCL := ZclResult(false, 0, 0)
  const NO_READ := ReadResult(false, false, 0, 0, 0)

  /** One `config/group` entry: whether it parsed as a number, and the number. */
  datatype GroupEntry = GroupEntry(ok: bool, group: nat)

  /** An entry of the binding table the core keeps for the node. */
  datatype CoreDestination = ToGroup(group: nat) | ToNode(ext: nat) | ToOther
  datatype CoreBinding = CoreBinding(clusterId: nat, srcEndpoint: u8, dst: CoreDestination)

  /** Everything the outside world answers while one step runs: the APS controller, the node cache,
      the resource items and the clock. */
  datatype Env = Env(
    node: bool,                     // the core knows a node for this MAC
    coordinator: bool,              // own MAC prefix and the node is the coordinator
    greenPower: bool,               // a Green Power source id instead of a MAC
    nodeDescriptor: bool,
    endpoints: seq<u8>,
    described: set<u8>,             // endpoints with a usable simple descriptor
    manufacturerKnown: bool,
    modelKnown: bool,
    reachable: bool,
    sleeper: bool,
    zdp: ZdpResult,
    zcl: ZclResult,
    read: ReadResult,
    unconfirmed: nat,               // DA_ApsUnconfirmedRequests()
    now: int,                       // steady clock in ms
    macAddress: nat,
    configGroups: Option<seq<GroupEntry>>,  // first sub-device with a config/group item
    inTable: Option<int>,           // confirmed time of the matching core binding table entry
    bindingTable: seq<CoreBinding>, // the core's binding table of the node
    nodes: set<nat>,                // MAC addresses of the nodes the core knows
    jitterDone: bool,
    pollItems: seq<nat>,            // DEV_GetPollItems
    readFunction: bool)             // the top poll item has a read function

  datatype Flags = Flags(initialRun: bool, managed: bool, hasDdf: bool, needMaintenance: bool,
                         needReadActive: bool, needReadSimple: bool, fetchIndex: nat)
}
