/** What each step does to the channel change, told apart from the methods; the ways in which it ends; and that
    a network which follows the request ends on the requested channel (change_channel.cpp). */
module ChannelLaws {
  import opened Basics
  import opened ChannelChange

  /** The network is up, on this channel, with the parameters the configuration asks for. */
  predicate IsOn(env: Env, channel: u8)
  {
    env.controller && env.network.InNetwork? && env.currentChannel == channel && env.parametersOk
  }

  /** A start inside a network renews a change that is under way, or begins with a look at the channel. */
  lemma StartLaw(s: Machine, channel: u8, env: Env)
    ensures Start(s, channel, env) ==
      if !(env.controller && env.network.InNetwork?) then s
      else if s.state.Idle? then
        s.(state := VerifyChannel, timer := true, retries := 0, channel := channel, h := History(0, 0, 0, s.h.fault))
      else s.(retries := 0, channel := channel)
  {
  }

  /** The look at the channel: the change is over exactly when the network is on the requested channel. */
  lemma VerifyLaw(s: Machine, env: Env)
    requires s.state.VerifyChannel? && s.timer
    ensures Next(s, Timer(env)) ==
      if IsOn(env, s.channel) then s.(state := Idle, timer := false) else s.(state := ChangeChannel, timer := true)
  {
  }

  /** One update request goes out as long as there is a controller and a retry left and the channel is one of
      the 16 of the 2.4 GHz band; a request that is refused is looked at like one that was never needed. */
  lemma ChangeLaw(s: Machine, env: Env)
    requires s.state.ChangeChannel? && s.timer
    ensures Next(s, Timer(env)) ==
      if !env.controller || !env.macOk || s.retries >= 2 then s.(state := Idle, timer := false, retries := 0)
      else if 11 <= s.channel <= 26 then
        s.(state := if env.sendOk then WaitConfirm else VerifyChannel, timer := true, retries := s.retries + 1,
           h := s.h.(broadcasts := s.h.broadcasts + 1))
      else s.(state := VerifyChannel, timer := true, retries := s.retries + 1)
  {
  }

  /** A confirmed update makes the network leave, with ten attempts; a failed one is looked at again; without
      a confirm the change is given up. */
  lemma ConfirmLaw(s: Machine, success: bool, env: Env)
    requires s.state.WaitConfirm? && s.timer
    ensures Next(s, Confirm(success, env)) ==
      if !success then s.(state := VerifyChannel, timer := true)
      else if !env.controller then s.(timer := false)
      else s.(state := Disconnecting, timer := true, disconnectAttempts := 10, connectedBefore := env.rfExpected,
              h := s.h.(disconnects := s.h.disconnects + 1))
    ensures Next(s, Timer(env)) == s.(state := Idle, timer := false)
  {
  }

  /** The network is asked to leave until it has left or the attempts are used up. */
  lemma DisconnectLaw(s: Machine, env: Env)
    requires s.state.Disconnecting? && s.timer && s.disconnectAttempts >= 1
    ensures Next(s, Timer(env)) ==
      if env.controller && env.network.InNetwork? && s.disconnectAttempts > 1 then
        s.(disconnectAttempts := s.disconnectAttempts - 1, h := s.h.(disconnects := s.h.disconnects + 1))
      else s.(state := Reconnecting, disconnectAttempts := s.disconnectAttempts - 1, reconnectAttempts := 10)
  {
  }

  /** A network that is back is looked at; one that was down before the change stays down; otherwise it is asked
      to come back, up to ten times. */
  lemma ReconnectLaw(s: Machine, env: Env)
    requires s.state.Reconnecting? && s.timer && s.reconnectAttempts >= 0
    ensures Next(s, Timer(env)) ==
      if env.controller && env.network.InNetwork? then s.(state := VerifyChannel)
      else if !s.connectedBefore || s.reconnectAttempts == 0 then s.(state := Idle, timer := false)
      else if !env.controller then s.(timer := false, h := s.h.(fault := true))
      else if env.network.Connecting? then s
      else s.(reconnectAttempts := s.reconnectAttempts - 1, h := s.h.(reconnects := s.h.reconnects + 1))
  {
  }

  /** Steps that nothing waits for change nothing. */
  lemma IdleStepLaw(s: Machine, step: Step)
    requires if step.Timer? then !s.timer else !s.state.WaitConfirm?
    ensures Next(s, step) == s
  {
  }

  // ----- How a change ends -----

  datatype Ending = OnChannel | NoConfirm | RetriesUsedUp | NoController | NotBack

  /** Why a step ends a change, if it does. */
  function EndingOf(s: Machine, step: Step): Option<Ending>
  {
    if !step.Timer? || !s.timer then None
    else match s.state
      case VerifyChannel => if IsOn(step.env, s.channel) then Some(OnChannel) else None
      case WaitConfirm => Some(NoConfirm)
      case ChangeChannel =>
        if !step.env.controller || !step.env.macOk then Some(NoController)
        else if s.retries >= 2 then Some(RetriesUsedUp) else None
      case Reconnecting =>
        if !(step.env.controller && step.env.network.InNetwork?) && (!s.connectedBefore || s.reconnectAttempts == 0)
        then Some(NotBack) else None
      case _ => None
  }

  lemma EndsIff(s: Machine, step: Step)
    requires !s.state.Idle? && (s.state.Reconnecting? ==> s.reconnectAttempts >= 0)
    ensures Next(s, step).state.Idle? <==> EndingOf(s, step).Some?
  {
  }

  lemma StepKeepsChannel(s: Machine, step: Step)
    ensures Next(s, step).channel == s.channel
  {
  }

  lemma {:induction false} RunKeepsChannel(s: Machine, steps: seq<Step>)
    ensures Run(s, steps).channel == s.channel
  {
    if steps != [] {
      RunKeepsChannel(s, steps[..|steps| - 1]);
      StepKeepsChannel(Run(s, steps[..|steps| - 1]), steps[|steps| - 1]);
    }
  }

  /** Main result on endings: over all runs from an accepted start, a step ends the change if and only if the
      network is found on the requested channel, the confirm or a controller is missing, the retries are used
      up, or the network does not come back. */
  lemma ChangeEndsIff(s: Machine, channel: u8, env: Env, steps: seq<Step>, step: Step)
    requires s.state.Idle? && IsInNetwork(env) && !Run(Start(s, channel, env), steps).state.Idle?
    ensures var r := Run(Start(s, channel, env), steps);
      && (Next(r, step).state.Idle? <==> EndingOf(r, step).Some?)
      && (EndingOf(r, step) == Some(OnChannel) ==> IsOn(step.env, channel))
      && (r.state.VerifyChannel? && r.timer && step.Timer? && !IsOn(step.env, channel) ==>
            Next(r, step).state.ChangeChannel?)
  {
    RequestsAreBounded(s, channel, env, steps);
    RunKeepsChannel(Start(s, channel, env), steps);
    var r := Run(Start(s, channel, env), steps);
    EndsIff(r, step);
    if r.state.VerifyChannel? && r.timer && step.Timer? {
      VerifyLaw(r, step.env);
    }
  }

  // ----- A change that works -----

  lemma RunMore(s: Machine, steps: seq<Step>, step: Step)
    ensures Run(s, steps + [step]) == Next(Run(s, steps), step)
  {
    assert (steps + [step])[..|steps|] == steps;
  }

  /** The same step again and again. */
  function Again(step: Step, n: nat): seq<Step>
  {
    if n == 0 then [] else Again(step, n - 1) + [step]
  }

  predicate Up(env: Env) { env.controller && env.network.InNetwork? }

  predicate Down(env: Env) { env.controller && env.network.NotInNetwork? }

  /** While the network is still up it is asked to leave. */
  lemma {:induction false} StillUp(s: Machine, env: Env, n: nat)
    requires s.state.Disconnecting? && s.timer && n < s.disconnectAttempts && Up(env)
    ensures Run(s, Again(Timer(env), n)) ==
      s.(disconnectAttempts := s.disconnectAttempts - n, h := s.h.(disconnects := s.h.disconnects + n))
  {
    if n > 0 {
      StillUp(s, env, n - 1);
      RunMore(s, Again(Timer(env), n - 1), Timer(env));
      DisconnectLaw(Run(s, Again(Timer(env), n - 1)), env);
    }
  }

  /** While it is down it is asked to come back. */
  lemma {:induction false} StillDown(s: Machine, env: Env, n: nat)
    requires s.state.Reconnecting? && s.timer && n <= s.reconnectAttempts && s.connectedBefore && Down(env)
    ensures Run(s, Again(Timer(env), n)) ==
      s.(reconnectAttempts := s.reconnectAttempts - n, h := s.h.(reconnects := s.h.reconnects + n))
  {
    if n > 0 {
      StillDown(s, env, n - 1);
      RunMore(s, Again(Timer(env), n - 1), Timer(env));
      ReconnectLaw(Run(s, Again(Timer(env), n - 1)), env);
    }
  }

  lemma {:induction false} RunJoins(s: Machine, a: seq<Step>, b: seq<Step>)
    ensures Run(s, a + b) == Run(Run(s, a), b)
  {
    if b == [] {
      assert a + b == a;
    } else {
      RunJoins(s, a, b[..|b| - 1]);
      assert (a + b)[..|a + b| - 1] == a + b[..|b| - 1];
    }
  }

  /** A network on another channel that takes the update, leaves after `slow` reminders and is back after `late`
      requests, on the requested channel. */
  function Following(before: Env, down: Env, after: Env, slow: nat, late: nat): seq<Step>
  {
    [Timer(before), Timer(before), Confirm(true, before)] + Again(Timer(before), slow)
    + [Timer(down)] + Again(Timer(down), late) + [Timer(after), Timer(after)]
  }

  lemma BeginsToLeave(s: Machine, env: Env)
    requires s.state.VerifyChannel? && s.timer && s.retries == 0 && 11 <= s.channel <= 26
    requires Up(env) && env.currentChannel != s.channel && env.macOk && env.sendOk
    ensures Run(s, [Timer(env), Timer(env), Confirm(true, env)]) ==
      s.(state := Disconnecting, retries := 1, disconnectAttempts := 10, connectedBefore := env.rfExpected,
         h := s.h.(broadcasts := s.h.broadcasts + 1, disconnects := s.h.disconnects + 1))
  {
    var t := Timer(env);
    RunMore(s, [], t);
    RunMore(s, [t], t);
    RunMore(s, [t, t], Confirm(true, env));
    assert [] + [t] == [t] && [t] + [t] == [t, t] && [t, t] + [Confirm(true, env)] == [t, t, Confirm(true, env)];
    VerifyLaw(s, env);
    ChangeLaw(Next(s, t), env);
    ConfirmLaw(Next(Next(s, t), t), true, env);
  }

  /** Main result on success: such a network ends on the requested channel, after one update request. */
  lemma ChannelIsChanged(s: Machine, channel: u8, before: Env, down: Env, after: Env, slow: nat, late: nat)
    requires s.state.Idle? && 11 <= channel <= 26
    requires Up(before) && before.currentChannel != channel && before.macOk && before.sendOk && before.rfExpected
    requires Down(down) && IsOn(after, channel) && slow < 10 && late <= 10
    ensures var r := Run(Start(s, channel, before), Following(before, down, after, slow, late));
      && r.state.Idle? && r.channel == channel
      && r.h.broadcasts == 1 && r.h.disconnects == slow + 1 && r.h.reconnects == late
    ensures var steps := Following(before, down, after, slow, late); var front := steps[..|steps| - 1];
      EndingOf(Run(Start(s, channel, before), front), Timer(after)) == Some(OnChannel)
  {
    StartLaw(s, channel, before);
    var s0 := Start(s, channel, before);
    var first := [Timer(before), Timer(before), Confirm(true, before)];
    BeginsToLeave(s0, before);
    var s1 := Run(s0, first);
    StillUp(s1, before, slow);
    RunJoins(s0, first, Again(Timer(before), slow));
    var s2 := Run(s1, Again(Timer(before), slow));
    DisconnectLaw(s2, down);
    RunMore(s0, first + Again(Timer(before), slow), Timer(down));
    var s3 := Next(s2, Timer(down));
    StillDown(s3, down, late);
    var a := first + Again(Timer(before), slow) + [Timer(down)];
    RunJoins(s0, a, Again(Timer(down), late));
    var b := a + Again(Timer(down), late);
    var s4 := Run(s3, Again(Timer(down), late));
    ReconnectLaw(s4, after);
    VerifyLaw(Next(s4, Timer(after)), after);
    RunMore(s0, b, Timer(after));
    RunMore(s0, b + [Timer(after)], Timer(after));
    hide Run, Next, Start;
    assert Following(before, down, after, slow, late) == b + [Timer(after)] + [Timer(after)];
  }
}
