/** Changing the Zigbee channel (change_channel.cpp): announce the change with a Mgmt_NWK_Update_req
    (053474r20, section 2.4.3.3.9), leave the network, come back, verify.  One timer drives it all. */
module ChannelChange {
  import opened Basics

  const NETWORK_ATTEMPTS := 10
  const MAX_RETRIES := 3

  datatype State = Idle | VerifyChannel | ChangeChannel | WaitConfirm | Disconnecting | Reconnecting

  datatype Network = InNetwork | Connecting | NotInNetwork

  /** What the controller answers during one step; `controller` is false when there is none. */
  datatype Env = Env(controller: bool, network: Network, currentChannel: u8, parametersOk: bool,
                     macOk: bool, sendOk: bool, rfExpected: bool)

  /** History: requests sent since the last accepted start; a step without controller that needs one. */
  datatype History = History(broadcasts: nat, disconnects: nat, reconnects: nat, fault: bool)

  datatype Machine = Machine(state: State, timer: bool, retries: nat, disconnectAttempts: int, reconnectAttempts: int,
                             connectedBefore: bool, channel: u8, h: History)

  predicate IsInNetwork(env: Env) { env.controller && env.network.InNetwork? }

  function Go(s: Machine, st: State): Machine { s.(state := st, timer := true) }

  /** startChannelChange */
  function Start(s: Machine, channel: u8, env: Env): Machine
  {
    if !IsInNetwork(env) then s
    else if !s.state.Idle? then s.(retries := 0, channel := channel)
    else Go(s, VerifyChannel).(retries := 0, channel := channel, h := History(0, 0, 0, s.h.fault))
  }

  /** verifyChannel */
  predicate Verified(channel: u8, env: Env)
  {
    IsInNetwork(env) && env.currentChannel == channel && env.parametersOk
  }

  /** changeChannel, called with the retry counter already increased. */
  function Change(s: Machine, env: Env): Machine
  {
    if env.controller && env.macOk && s.retries < MAX_RETRIES then
      if 11 <= s.channel <= 26 then
        var s1 := s.(h := s.h.(broadcasts := s.h.broadcasts + 1));
        if env.sendOk then Go(s1, WaitConfirm) else Go(s1, VerifyChannel)
      else Go(s, VerifyChannel)
    else s.(retries := 0, state := Idle)
  }

  /** channelChangeDisconnectNetwork */
  function Disconnect(s: Machine, env: Env): Machine
  {
    if !s.state.WaitConfirm? || !env.controller then s
    else Go(s, Disconnecting).(disconnectAttempts := NETWORK_ATTEMPTS, connectedBefore := env.rfExpected,
                               h := s.h.(disconnects := s.h.disconnects + 1))
  }

  /** channelChangeSendConfirm, which the caller invokes only for the request in flight. */
  function SendConfirm(s: Machine, success: bool, env: Env): Machine
  {
    var s1 := s.(timer := false);
    if !s.state.WaitConfirm? then s1
    else if !success then Go(s1, VerifyChannel)
    else Disconnect(s1, env)
  }

  function StartReconnect(s: Machine): Machine
  {
    Go(s, Reconnecting).(reconnectAttempts := NETWORK_ATTEMPTS)
  }

  /** checkChannelChangeNetworkDisconnected */
  function CheckDisconnected(s: Machine, env: Env): Machine
  {
    if !s.state.Disconnecting? then s else
    var left := if s.disconnectAttempts > 0 then s.disconnectAttempts - 1 else s.disconnectAttempts;
    var s1 := s.(disconnectAttempts := left);
    if IsInNetwork(env) && left != 0 then Go(s1, Disconnecting).(h := s.h.(disconnects := s.h.disconnects + 1))
    else StartReconnect(s1)
  }

  /** channelChangeReconnectNetwork */
  function Reconnect(s: Machine, env: Env): Machine
  {
    if !s.state.Reconnecting? then s else
    if IsInNetwork(env) then Go(s, VerifyChannel)
    else if !s.connectedBefore then s.(state := Idle)
    else if s.reconnectAttempts > 0 then
      if !env.controller then s.(h := s.h.(fault := true))
      else if env.network.Connecting? then s.(timer := true)
      else Go(s, Reconnecting).(reconnectAttempts := s.reconnectAttempts - 1,
          h := s.h.(reconnects := s.h.reconnects + 1))
    else s.(state := Idle)
  }

  /** channelchangeTimerFired */
  function TimerFired(s: Machine, env: Env): Machine
  {
    match s.state
    case Idle => s
    case VerifyChannel => if Verified(s.channel, env) then s.(state := Idle) else Go(s, ChangeChannel)
    case ChangeChannel => Change(s.(retries := s.retries + 1), env)
    case Reconnecting => Reconnect(s, env)
    case Disconnecting => CheckDisconnected(s, env)
    case WaitConfirm => s.(state := Idle)
  }

  /** The steps between two starts: the timer fires, or the confirm of the request in flight arrives; the
      caller of channelChangeSendConfirm checks both (de_web_plugin.cpp:1555). */
  datatype Step = Timer(env: Env) | Confirm(success: bool, env: Env)

  function Next(s: Machine, step: Step): Machine
  {
    match step
    case Timer(env) => if s.timer then TimerFired(s.(timer := false), env) else s
    case Confirm(success, env) => if s.state.WaitConfirm? then SendConfirm(s, success, env) else s
  }

  function Run(s: Machine, steps: seq<Step>): Machine
  {
    if steps == [] then s else Next(Run(s, steps[..|steps| - 1]), steps[|steps| - 1])
  }

  // ----- Bounds on what is sent -----

  /** Requests sent so far against the retries and attempts used up. */
  ghost predicate Budget(s: Machine)
  {
    var r, d, c := s.retries, s.h.disconnects, s.h.reconnects;
    && s.h.broadcasts <= 2 && d <= 20 && c <= 20
    && (!s.state.Idle? ==> r <= 2 && s.h.broadcasts <= r)
    && match s.state
       case Idle => true
       case VerifyChannel | ChangeChannel => d <= 10 * r && c <= 10 * r
       case WaitConfirm => r >= 1 && d <= 10 * (r - 1) && c <= 10 * (r - 1)
       case Disconnecting =>
         r >= 1 && 1 <= s.disconnectAttempts <= 10 && d <= 10 * (r - 1) + 11 - s.disconnectAttempts && c <= 10 * (r - 1)
       case Reconnecting =>
         r >= 1 && 0 <= s.reconnectAttempts <= 10 && d <= 10 * r && c <= 10 * (r - 1) + 10 - s.reconnectAttempts
  }

  lemma StepWithinBudget(s: Machine, step: Step)
    requires Budget(s)
    ensures Budget(Next(s, step))
  {
  }

  /** From an accepted start on, any run without a further start sends at most 2 network updates, 20
      disconnect and 20 reconnect requests. */
  lemma {:induction false} RequestsAreBounded(s: Machine, channel: u8, env: Env, steps: seq<Step>)
    requires s.state.Idle? && IsInNetwork(env)
    ensures var r := Run(Start(s, channel, env), steps);
      Budget(r) && r.h.broadcasts <= 2 && r.h.disconnects <= 20 && r.h.reconnects <= 20
  {
    if steps != [] {
      RequestsAreBounded(s, channel, env, steps[..|steps| - 1]);
      StepWithinBudget(Run(Start(s, channel, env), steps[..|steps| - 1]), steps[|steps| - 1]);
    }
  }

  // ----- Termination -----

  /** Waiting for a network that is still connecting is the only step that may repeat without end. */
  predicate WaitsForNetwork(s: Machine, step: Step)
  {
    step.Timer? && s.timer && s.state.Reconnecting? && s.connectedBefore && s.reconnectAttempts > 0
    && step.env.controller && step.env.network.Connecting?
  }

  /** The step acts: an armed timer fires or a confirm is expected. */
  predicate Acts(s: Machine, step: Step)
  {
    if step.Timer? then s.timer else s.state.WaitConfirm?
  }

  /** A bound on the acting steps left: lexicographic in retries, protocol phase and attempts. */
  function Rank(s: Machine): int
  {
    match s.state
    case Idle => 0
    case ChangeChannel => 26 * (3 - s.retries) + 1
    case VerifyChannel => 26 * (3 - s.retries) + 2
    case Reconnecting => 26 * (3 - s.retries) + 3 + s.reconnectAttempts
    case Disconnecting => 26 * (3 - s.retries) + 14 + s.disconnectAttempts
    case WaitConfirm => 26 * (3 - s.retries) + 25
  }

  ghost predicate Armed(s: Machine) { !s.state.Idle? <==> s.timer }

  lemma StepLowersRank(s: Machine, step: Step)
    requires Budget(s) && Armed(s) && step.env.controller
    ensures var r := Next(s, step);
      && Armed(r) && r.h.fault == s.h.fault
      && Rank(r) <= Rank(s) - (if Acts(s, step) && !WaitsForNetwork(s, step) then 1 else 0)
      && 0 <= Rank(r) && (Rank(r) == 0 <==> r.state.Idle?)
  {
  }

  /** Acting steps of a run that do not merely wait for a connecting network. */
  function Progressing(s: Machine, steps: seq<Step>): nat
  {
    if steps == [] then 0
    else
      var front := steps[..|steps| - 1];
      var step := steps[|steps| - 1];
      Progressing(s, front)
      + (if Acts(Run(s, front), step) && !WaitsForNetwork(Run(s, front), step) then 1 else 0)
  }

  ghost predicate LiveController(steps: seq<Step>)
  {
    forall k :: 0 <= k < |steps| ==> steps[k].env.controller
  }

  /** With a live controller every state but Idle has its timer armed, and after at most 80 acting steps
      that do not wait for a connecting network the machine is back in Idle. */
  lemma {:induction false} ReachesIdle(s: Machine, channel: u8, env: Env, steps: seq<Step>)
    requires Armed(s) && s.state.Idle? && IsInNetwork(env) && LiveController(steps)
    ensures var r := Run(Start(s, channel, env), steps);
      && (!r.state.Idle? <==> r.timer) && r.h.fault == s.h.fault
      && Progressing(Start(s, channel, env), steps) + Rank(r) <= 80
      && (Progressing(Start(s, channel, env), steps) >= 80 ==> r.state.Idle?)
  {
    RequestsAreBounded(s, channel, env, steps);
    if steps != [] {
      var front := steps[..|steps| - 1];
      assert forall k :: 0 <= k < |front| ==> front[k] == steps[k];
      ReachesIdle(s, channel, env, front);
      RequestsAreBounded(s, channel, env, front);
      StepLowersRank(Run(Start(s, channel, env), front), steps[|steps| - 1]);
    }
    RankIsZeroInIdle(Run(Start(s, channel, env), steps));
  }

  lemma RankIsZeroInIdle(s: Machine)
    requires Budget(s)
    ensures 0 <= Rank(s) && (Rank(s) == 0 <==> s.state.Idle?)
  {
  }

  /** The exact condition for an armed machine to stay armed: only a successful confirm or a reconnect
      attempt without a controller leaves a state without its timer. */
  lemma StaysArmedIff(s: Machine, step: Step)
    requires Armed(s) && Budget(s)
    ensures Armed(Next(s, step)) <==>
            step.env.controller
            || !Acts(s, step)
            || (step.Confirm? && !step.success)
            || (step.Timer? && !(s.state.Reconnecting? && s.connectedBefore && s.reconnectAttempts > 0))
  {
  }

  // ----- The methods of DeRestPluginPrivate -----

  class ChannelChanger {
    var channelChangeState: State
    var timer: bool
    var ccRetries: nat
    var ccNetworkDisconnectAttempts: int
    var ccNetworkReconnectAttempts: int
    var ccNetworkConnectedBefore: bool
    var gwZigbeeChannel: u8
    ghost var h: History

    ghost function View(): Machine
      reads this
    {
      Machine(channelChangeState, timer, ccRetries, ccNetworkDisconnectAttempts, ccNetworkReconnectAttempts,
              ccNetworkConnectedBefore, gwZigbeeChannel, h)
    }

    /** initChangeChannelApi */
    constructor (channel: u8)
      ensures View() == Machine(Idle, false, 0, 0, 0, false, channel, History(0, 0, 0, false))
    {
      channelChangeState, timer, ccRetries := Idle, false, 0;
      ccNetworkDisconnectAttempts, ccNetworkReconnectAttempts, ccNetworkConnectedBefore := 0, 0, false;
      gwZigbeeChannel, h := channel, History(0, 0, 0, false);
    }

    method StartChannelChange(channel: u8, env: Env) returns (connected: bool)
      modifies this
      ensures View() == Start(old(View()), channel, env) && connected == IsInNetwork(env)
    {
      if !IsInNetwork(env) {
        return false;
      }
      ccRetries := 0;
      gwZigbeeChannel := channel;
      if channelChangeState != Idle {
        return true;
      }
      channelChangeState := VerifyChannel;
      timer := true;
      h := History(0, 0, 0, h.fault);
      return true;
    }

    method DoChangeChannel(env: Env)
      modifies this
      ensures View() == Change(old(View()), env)
    {
      if !env.controller {
      } else if !env.macOk {
      } else if ccRetries < MAX_RETRIES {
        if 11 <= gwZigbeeChannel <= 26 {
          h := h.(broadcasts := h.broadcasts + 1);
          if env.sendOk {
            channelChangeState := WaitConfirm;
            timer := true;
            return;
          }
        }
        channelChangeState := VerifyChannel;
        timer := true;
        return;
      }
      ccRetries := 0;
      channelChangeState := Idle;
    }

    method ChannelChangeSendConfirm(success: bool, env: Env)
      modifies this
      ensures View() == SendConfirm(old(View()), success, env)
    {
      timer := false;
      if channelChangeState == WaitConfirm {
        if success {
          DisconnectNetwork(env);
        } else {
          channelChangeState := VerifyChannel;
          timer := true;
        }
      }
    }

    method DisconnectNetwork(env: Env)
      modifies this
      ensures View() == Disconnect(old(View()), env)
    {
      if channelChangeState != WaitConfirm {
        return;
      }
      if !env.controller {
        return;
      }
      ccNetworkDisconnectAttempts := NETWORK_ATTEMPTS;
      ccNetworkConnectedBefore := env.rfExpected;
      channelChangeState := Disconnecting;
      h := h.(disconnects := h.disconnects + 1);
      timer := true;
    }

    method StartReconnectNetwork()
      modifies this
      ensures View() == StartReconnect(old(View()))
    {
      channelChangeState := Reconnecting;
      ccNetworkReconnectAttempts := NETWORK_ATTEMPTS;
      timer := false;
      timer := true;
    }

    method CheckNetworkDisconnected(env: Env)
      modifies this
      ensures View() == CheckDisconnected(old(View()), env)
    {
      if channelChangeState != Disconnecting {
        return;
      }
      if ccNetworkDisconnectAttempts > 0 {
        ccNetworkDisconnectAttempts := ccNetworkDisconnectAttempts - 1;
      }
      if IsInNetwork(env) {
        if ccNetworkDisconnectAttempts == 0 {
          StartReconnectNetwork();
        } else {
          h := h.(disconnects := h.disconnects + 1);
          timer := true;
        }
        return;
      }
      StartReconnectNetwork();
    }

    method ReconnectNetwork(env: Env)
      modifies this
      ensures View() == Reconnect(old(View()), env)
    {
      if channelChangeState != Reconnecting {
        return;
      }
      if IsInNetwork(env) {
        channelChangeState := VerifyChannel;
        timer := true;
        return;
      }
      if !ccNetworkConnectedBefore {
        channelChangeState := Idle;
        return;
      }
      if ccNetworkReconnectAttempts > 0 {
        if !env.controller {
          h := h.(fault := true);
          return;
        }
        if env.network != Connecting {
          ccNetworkReconnectAttempts := ccNetworkReconnectAttempts - 1;
          h := h.(reconnects := h.reconnects + 1);
        }
        timer := true;
      } else {
        channelChangeState := Idle;
      }
    }

    /** The slot of the single-shot timer. */
    method ChannelChangeTimerFired(env: Env)
      requires timer
      modifies this
      ensures View() == Next(old(View()), Timer(env))
    {
      timer := false;
      match channelChangeState
      case Idle =>
      case VerifyChannel =>
        if !Verified(gwZigbeeChannel, env) {
          channelChangeState := ChangeChannel;
          timer := true;
        } else {
          channelChangeState := Idle;
        }
      case ChangeChannel =>
        ccRetries := ccRetries + 1;
        DoChangeChannel(env);
      case Reconnecting => ReconnectNetwork(env);
      case Disconnecting => CheckNetworkDisconnected(env);
      case WaitConfirm => channelChangeState := Idle;
    }
  }
}
