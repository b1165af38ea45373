/**
  The driver loop (`Program.Main`): every iteration recomputes the device
  status from the live signals and dispatches exactly one stage action. The
  loop in `Main` never ends; here it runs over a finite sequence of
  environment outcomes, one per iteration, and stops early only when an
  exception escapes a stage action (which ends `Main`).
 */
module Program {
  import opened Wrappers
  import opened Sas
  import opened Mqtt
  import opened DeviceAgent

  datatype Action = JoinNetwork | OpenSession | SetupSensor | SendTelemetry

  /** The switch of the loop body: one action per status, for all four statuses. */
  function Dispatch(s: DeviceStatus): (r: Action)
    ensures r == JoinNetwork <==> s == Disconnected
    ensures r == SendTelemetry <==> s == ConfiguredIoCDevice
  {
    match s
    case Disconnected => JoinNetwork
    case ConnectedToNetwork => OpenSession
    case ConnectedToServices => SetupSensor
    case ConfiguredIoCDevice => SendTelemetry
  }

  /** Each status gets its own action. */
  lemma DispatchInjective(a: DeviceStatus, b: DeviceStatus)
    ensures Dispatch(a) == Dispatch(b) ==> a == b
  {
  }

  /**
    What the outside world does during one iteration: whether the Wi-Fi went
    away and whether the broker session closed since the previous iteration,
    then how the stage action's calls answer.
   */
  datatype Env = Env(networkLost: bool, sessionDrops: bool,
                     networkJoins: bool, now: nat, brokerReply: BrokerReply, sensorSetupSucceeds: bool,
                     reading: Option<Reading>, readTime: nat, publishesBeforeFault: nat)

  /** The device's fixed configuration. */
  datatype Config = Config(identity: Identity, crypto: Crypto)

  datatype StepResult = StepResult(action: Action, state: DeviceState, faulted: bool)

  /**
    The live signals as the iteration finds them: a lost network clears the
    network flag, a closed session leaves a client that is not connected, and
    nothing the device itself keeps changes.
   */
  function Disturbed(s: DeviceState, env: Env): (r: DeviceState)
    ensures r.networkReady == (s.networkReady && !env.networkLost)
    ensures r.client == if env.sessionDrops then Dropped(s.client) else s.client
    ensures r.published == s.published && r.sensorPresent == s.sensorPresent
    ensures r.lastMessageSent == s.lastMessageSent
    ensures Rank(Status(r)) <= Rank(Status(s))
    ensures !env.networkLost && !env.sessionDrops ==> r == s
  {
    s.(networkReady := s.networkReady && !env.networkLost,
       client := if env.sessionDrops then Dropped(s.client) else s.client)
  }

  /** One iteration of the loop body, on values. */
  function NextState(cfg: Config, s: DeviceState, env: Env): (r: StepResult)
    ensures r.action == Dispatch(Status(Disturbed(s, env)))
    ensures r.faulted ==> r.action == SendTelemetry
  {
    var t := Disturbed(s, env);
    match Status(t)
    case Disconnected =>
      StepResult(JoinNetwork, t.(networkReady := env.networkJoins), false)
    case ConnectedToNetwork =>
      var client := AfterConnect(cfg.identity, cfg.crypto, env.now, env.brokerReply).client;
      StepResult(OpenSession, t.(client := Some(client)), false)
    case ConnectedToServices =>
      StepResult(SetupSensor, t.(sensorPresent := t.sensorPresent || env.sensorSetupSucceeds), false)
    case ConfiguredIoCDevice =>
      var sent := AfterSend(t, cfg.identity.deviceId, env.now, env.reading, env.readTime, env.publishesBeforeFault);
      StepResult(SendTelemetry, sent.state, sent.faulted)
  }

  function ConfigOf(d: Device): Config
  {
    Config(d.mqtt.identity, d.mqtt.crypto)
  }

  /** The body of `Main`'s loop. */
  method Step(d: Device, env: Env) returns (action: Action, faulted: bool)
    modifies d, d.mqtt
    ensures action == NextState(ConfigOf(d), old(d.State()), env).action
    ensures d.State() == NextState(ConfigOf(d), old(d.State()), env).state
    ensures faulted == NextState(ConfigOf(d), old(d.State()), env).faulted
  {
    if env.networkLost {
      d.NetworkLost();
    }
    if env.sessionDrops {
      d.mqtt.ConnectionClosed();
    }
    faulted := false;
    match d.GetStatus()
    case Disconnected =>
      d.ConnectToNetwork(env.networkJoins);
      action := JoinNetwork;
    case ConnectedToNetwork =>
      d.ConnectToServices(env.now, env.brokerReply);
      action := OpenSession;
    case ConnectedToServices =>
      d.SetupIoCDevice(env.sensorSetupSucceeds);
      action := SetupSensor;
    case ConfiguredIoCDevice =>
      faulted := d.SendSensorData(env.now, env.reading, env.readTime, env.publishesBeforeFault);
      action := SendTelemetry;
  }

  datatype RunResult = RunResult(state: DeviceState, actions: seq<Action>, halted: bool)

  /** The loop over a finite sequence of iterations; an escaping exception ends it. */
  function Run(cfg: Config, s: DeviceState, envs: seq<Env>): (r: RunResult)
    ensures |r.actions| <= |envs|
    ensures !r.halted ==> |r.actions| == |envs|
    ensures r.halted ==> |r.actions| > 0 && r.actions[|r.actions| - 1] == SendTelemetry
    decreases |envs|
  {
    if envs == [] then RunResult(s, [], false)
    else
      var step := NextState(cfg, s, envs[0]);
      if step.faulted then RunResult(step.state, [step.action], true)
      else
        var rest := Run(cfg, step.state, envs[1..]);
        RunResult(rest.state, [step.action] + rest.actions, rest.halted)
  }

  /** `Main`'s `while (true)` loop, run for `|envs|` iterations. */
  method RunLoop(d: Device, envs: seq<Env>) returns (actions: seq<Action>, halted: bool)
    modifies d, d.mqtt
    ensures RunResult(d.State(), actions, halted) == Run(ConfigOf(d), old(d.State()), envs)
  {
    ghost var cfg := ConfigOf(d);
    ghost var total := Run(cfg, d.State(), envs);
    actions, halted := [], false;
    var i := 0;
    while i < |envs| && !halted
      invariant 0 <= i <= |envs|
      invariant ConfigOf(d) == cfg
      invariant !halted ==> total == (var rest := Run(cfg, d.State(), envs[i..]);
                                      RunResult(rest.state, actions + rest.actions, rest.halted))
      invariant halted ==> total == RunResult(d.State(), actions, true)
    {
      var action, faulted := Step(d, envs[i]);
      assert envs[i..][0] == envs[i] && envs[i..][1..] == envs[i + 1..];
      actions := actions + [action];
      halted := faulted;
      i := i + 1;
    }
    if !halted {
      assert envs[i..] == [];
    }
  }

  // ---------------------------------------------------------------------
  // Properties
  // ---------------------------------------------------------------------

  /** The key decodes, nothing drops, and the Wi-Fi, broker, sensor and publishes all succeed. */
  predicate AllSucceed(cfg: Config, env: Env)
  {
    cfg.crypto.fromBase64(cfg.identity.sasKey).Some? &&
    !env.networkLost && !env.sessionDrops &&
    env.networkJoins && env.brokerReply == Accepted && env.sensorSetupSucceeds && env.publishesBeforeFault >= 5
  }

  /** A successful iteration moves a device below the last stage up at least one stage, and keeps it at the last stage. */
  lemma StepProgress(cfg: Config, s: DeviceState, env: Env)
    requires AllSucceed(cfg, env)
    ensures var r := NextState(cfg, s, env);
      !r.faulted &&
      (Status(s) != ConfiguredIoCDevice ==> Rank(Status(r.state)) > Rank(Status(s))) &&
      (Status(s) == ConfiguredIoCDevice ==> Status(r.state) == ConfiguredIoCDevice)
  {
  }

  /** From any state, successful iterations climb one stage each until the last stage, and stay there. */
  lemma {:induction false} RunProgress(cfg: Config, s: DeviceState, envs: seq<Env>)
    requires forall i :: 0 <= i < |envs| ==> AllSucceed(cfg, envs[i])
    ensures var r := Run(cfg, s, envs);
      !r.halted && Rank(Status(r.state)) >= Min(3, Rank(Status(s)) + |envs|)
    decreases |envs|
  {
    if envs != [] {
      StepProgress(cfg, s, envs[0]);
      RunProgress(cfg, NextState(cfg, s, envs[0]).state, envs[1..]);
    }
  }

  /** Three successful iterations reach `ConfiguredIoCDevice` from any state, in particular from power-up. */
  lemma ReachesConfiguredWithinThree(cfg: Config, s: DeviceState, envs: seq<Env>)
    requires |envs| >= 3
    requires forall i :: 0 <= i < |envs| ==> AllSucceed(cfg, envs[i])
    ensures Status(Run(cfg, s, envs).state) == ConfiguredIoCDevice
  {
    RunProgress(cfg, s, envs);
  }

  /**
    While the Wi-Fi join keeps failing, the device stays disconnected and never
    touches the broker: the only change a run can make is a session closing
    under the old client.
   */
  lemma {:induction false} JoinFailuresStayDisconnected(cfg: Config, s: DeviceState, envs: seq<Env>)
    requires !s.networkReady
    requires forall i :: 0 <= i < |envs| ==> !envs[i].networkJoins
    ensures var r := Run(cfg, s, envs).state;
      r == s || r == s.(client := Dropped(s.client))
    ensures forall i :: 0 <= i < |Run(cfg, s, envs).actions| ==> Run(cfg, s, envs).actions[i] == JoinNetwork
    decreases |envs|
  {
    if envs != [] {
      var next := NextState(cfg, s, envs[0]).state;
      JoinFailuresStayDisconnected(cfg, next, envs[1..]);
      assert next.(client := Dropped(next.client)) == s.(client := Dropped(s.client));
    }
  }

  /** A lost network is noticed by the very next iteration, which rejoins before anything else. */
  lemma NetworkLossRejoins(cfg: Config, s: DeviceState, env: Env)
    requires env.networkLost
    ensures var r := NextState(cfg, s, env);
      r.action == JoinNetwork && !r.faulted &&
      r.state.networkReady == env.networkJoins && r.state.published == s.published &&
      r.state.sensorPresent == s.sensorPresent && r.state.lastMessageSent == s.lastMessageSent
  {
  }

  /**
    Status is not cached: when the session drops at the last stage, the next
    iteration opens a new session with a token issued at that iteration's
    clock instead of publishing on the stale client.
   */
  lemma DropReopensSession(cfg: Config, s: DeviceState, env: Env)
    requires Status(s) == ConfiguredIoCDevice
    requires env.sessionDrops && !env.networkLost
    requires cfg.crypto.fromBase64(cfg.identity.sasKey).Some?
    ensures var r := NextState(cfg, s, env);
      r.action == OpenSession &&
      r.state.published == s.published &&
      r.state.client.Some? && r.state.client.value.login.Some? == (env.brokerReply != TransportFailure) &&
      (env.brokerReply != TransportFailure ==>
        r.state.client.value.login.value.password ==
          Token(cfg.crypto, cfg.crypto.fromBase64(cfg.identity.sasKey).value, TokenResource(cfg.identity),
                UnixSeconds(env.now) + TokenTtlSeconds, None))
  {
  }

  /** A sensor set-up failure leaves the handle null, so the device stays at `ConnectedToServices`. */
  lemma SetupFailureStays(cfg: Config, s: DeviceState, env: Env)
    requires Status(s) == ConnectedToServices && !env.networkLost && !env.sessionDrops
    requires !env.sensorSetupSucceeds
    ensures NextState(cfg, s, env).state == s
    ensures Status(NextState(cfg, s, env).state) == ConnectedToServices
  {
  }

  /**
    Until the first publish, the stamp is still `DateTime.MinValue`: from
    power-up, a run that has not halted and has published nothing has never
    moved the stamp, so the first `SendSensorData` after the first minute of
    the calendar passes the gate.
   */
  lemma {:induction false} StampUntouchedUntilFirstPublish(cfg: Config, s: DeviceState, envs: seq<Env>, now: nat)
    requires s.published == [] ==> s.lastMessageSent == MinTime
    ensures var r := Run(cfg, s, envs);
      |s.published| <= |r.state.published| &&
      (!r.halted && r.state.published == [] ==> r.state.lastMessageSent == MinTime) &&
      (!r.halted && r.state.published == [] && now >= OneMinuteTicks ==> !RateLimited(now, r.state.lastMessageSent))
    decreases |envs|
  {
    if envs != [] {
      var step := NextState(cfg, s, envs[0]);
      if !step.faulted {
        StampUntouchedUntilFirstPublish(cfg, step.state, envs[1..], now);
      }
    }
  }

  /** The device state at the start of iteration `i` of a run that has not stopped before it. */
  function StateAt(cfg: Config, s: DeviceState, envs: seq<Env>, i: nat): DeviceState
    requires i <= |envs|
    decreases i
  {
    if i == 0 then s else StateAt(cfg, NextState(cfg, s, envs[0]).state, envs[1..], i - 1)
  }

  /**
    The trace of a run, iteration by iteration: the i-th action is the dispatch
    of the status found at the start of iteration i, the i-th step faults
    exactly when it is the last one of a halted run, and the final state is
    the state after the last step taken.
   */
  lemma {:induction false} RunDispatches(cfg: Config, s: DeviceState, envs: seq<Env>)
    ensures var r := Run(cfg, s, envs);
      forall i :: 0 <= i < |r.actions| ==>
        r.actions[i] == Dispatch(Status(Disturbed(StateAt(cfg, s, envs, i), envs[i]))) &&
        (NextState(cfg, StateAt(cfg, s, envs, i), envs[i]).faulted <==> r.halted && i == |r.actions| - 1)
    ensures var r := Run(cfg, s, envs);
      r.state == StateAt(cfg, s, envs, |r.actions|)
    decreases |envs|
  {
    if envs != [] {
      var step := NextState(cfg, s, envs[0]);
      if !step.faulted {
        RunDispatches(cfg, step.state, envs[1..]);
      }
    }
  }
}
