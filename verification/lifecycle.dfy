/** The connection lifecycle as one system: a ConnectionManager holding a
    MetaMask adapter, driven by user commands, by provider events, by the
    adapter's polling interval and by both reconnect timers. */
module Lifecycle {
  import opened Wrappers
  import opened StateStore
  import opened Wallet
  import MetaMaskAdapter
  import CM = ConnectionManager

  /** What the provider or a clock does to the held adapter. */
  datatype Signal =
    | AccountsChanged(accounts: seq<string>)
    | ChainChanged(chainId: string)
    | ProviderConnect
    | ProviderDisconnect
    | Tick(probe: Probe)
    | AdapterTimer(detection: Detection, reply: ConnectReply)

  /** Everything that can happen to the system. */
  datatype Input =
    | Initialize(kind: string, detection: Detection, reply: ConnectReply)
    | ConnectCommand(detection: Detection, reply: ConnectReply)
    | DisconnectCommand
    | CorrectedDisconnectCommand
    | SwitchNetworkCommand(accepted: bool)
    | ForceReconnectCommand(detection: Detection, reply: ConnectReply)
    | CancelReconnectCommand
    | ResetCommand
    | DestroyCommand
    | FromAdapter(signal: Signal)
    | ManagerTimer(detection: Detection, reply: ConnectReply)

  /** Inputs no user issues. */
  predicate Passive(i: Input) {
    i.FromAdapter? || i.ManagerTimer?
  }

  /** An adapter with nothing attached and nothing scheduled. */
  predicate Idle(a: MetaMaskAdapter.Adapter) {
    !a.listening && !a.polling && a.timer.None?
  }

  function OnAdapter(a: MetaMaskAdapter.Adapter, signal: Signal): (r: MetaMaskAdapter.AdapterStep)
    ensures MetaMaskAdapter.Valid(a) ==> MetaMaskAdapter.Valid(r.next) && AllConsistent(r.events)
    ensures Idle(a) ==> r.next == a && r.events == []
  {
    match signal
    case AccountsChanged(accounts) => MetaMaskAdapter.OnAccountsChanged(a, accounts)
    case ChainChanged(chainId) => MetaMaskAdapter.OnChainChanged(a, chainId)
    case ProviderConnect => MetaMaskAdapter.OnProviderConnect(a)
    case ProviderDisconnect => MetaMaskAdapter.OnProviderDisconnect(a)
    case Tick(probe) => MetaMaskAdapter.Tick(a, probe)
    case AdapterTimer(detection, reply) => MetaMaskAdapter.FireTimer(a, detection, reply)
  }

  /** One input. A user disconnect is `disconnect` as the manager writes it,
      with the flag set after the adapter has been told; the corrected order,
      gate first, is the separate input `CorrectedDisconnectCommand`, so the
      invariant covers both. */
  function Dispatch(m: CM.Manager, i: Input): (r: CM.ManagerStep)
    ensures CM.Inv(m) ==> CM.Inv(r.next)
    ensures r.next.config == m.config
  {
    match i
    case Initialize(kind, detection, reply) =>
      var a := CM.InitializeWallet(m, kind, detection, reply); Step(a.next, a.events)
    case ConnectCommand(detection, reply) =>
      var a := CM.Connect(m, detection, reply); Step(a.next, a.events)
    case DisconnectCommand => CM.DisconnectAsWritten(m)
    case CorrectedDisconnectCommand => CM.Disconnect(m)
    case SwitchNetworkCommand(accepted) =>
      var a := CM.SwitchNetwork(m, accepted); Step(a.next, a.events)
    case ForceReconnectCommand(detection, reply) =>
      var a := CM.ForceReconnect(m, detection, reply); Step(a.next, a.events)
    case CancelReconnectCommand => Step(CM.CancelReconnect(m), [])
    case ResetCommand => CM.ResetManualDisconnect(m)
    case DestroyCommand => Step(CM.Destroy(m), [])
    case FromAdapter(signal) =>
      if m.slot.None? then Step(m, [])
      else
        var s := OnAdapter(m.slot.value.adapter, signal);
        CM.Absorb(m, s.next, s.events)
    case ManagerTimer(detection, reply) => CM.FireTimer(m, detection, reply)
  }

  /** The inputs in order; the events of each step follow those of the last. */
  function Run(m: CM.Manager, inputs: seq<Input>): CM.ManagerStep
    decreases |inputs|
  {
    if inputs == [] then Step(m, [])
    else
      var s := Dispatch(m, inputs[0]);
      var t := Run(s.next, inputs[1..]);
      Step(t.next, s.events + t.events)
  }

  /** The manager's invariant holds along every run. */
  lemma {:induction false} RunKeepsInv(m: CM.Manager, inputs: seq<Input>)
    requires CM.Inv(m)
    ensures CM.Inv(Run(m, inputs).next)
    decreases |inputs|
  {
    if inputs != [] {
      RunKeepsInv(Dispatch(m, inputs[0]).next, inputs[1..]);
    }
  }

  /** A system whose adapter is idle and whose own retry is not pending. */
  predicate Quiet(m: CM.Manager) {
    m.slot.Some? && Idle(m.slot.value.adapter) && m.timer.None?
  }

  lemma QuietIgnoresPassive(m: CM.Manager, i: Input)
    requires Quiet(m) && Passive(i)
    ensures Dispatch(m, i) == Step(m, [])
  {
    if i.FromAdapter? {
      assert m.slot.value.(adapter := m.slot.value.adapter) == m.slot.value;
    }
  }

  /** A quiet system stays exactly as it is under any run of passive inputs. */
  lemma {:induction false} QuietStays(m: CM.Manager, inputs: seq<Input>)
    requires Quiet(m)
    requires forall k :: 0 <= k < |inputs| ==> Passive(inputs[k])
    ensures Run(m, inputs) == Step(m, [])
    decreases |inputs|
  {
    if inputs != [] {
      QuietIgnoresPassive(m, inputs[0]);
      QuietStays(m, inputs[1..]);
    }
  }

  /** After a user disconnect nothing but a user command changes the system:
      no provider event, tick or timer reconnects it, whatever the
      configuration. */
  lemma DisconnectSettles(m: CM.Manager, inputs: seq<Input>)
    requires m.slot.Some?
    requires forall k :: 0 <= k < |inputs| ==> Passive(inputs[k])
    ensures var b := CM.Disconnect(m).next;
            && Run(b, inputs).next == b
            && b.state.core.manuallyDisconnected && !b.state.core.isConnected
  {
    QuietStays(CM.Disconnect(m).next, inputs);
  }

  /** The disconnect as written settles too, but only when the manager does not
      reconnect automatically. */
  lemma DisconnectAsWrittenSettlesWithoutAutoReconnect(m: CM.Manager, inputs: seq<Input>)
    requires m.slot.Some? && !m.config.autoReconnect
    requires forall k :: 0 <= k < |inputs| ==> Passive(inputs[k])
    ensures var b := CM.DisconnectAsWritten(m).next;
            Run(b, inputs).next == b && b.state.core.manuallyDisconnected
  {
    QuietStays(CM.DisconnectAsWritten(m).next, inputs);
  }

  /** A reply that grants an account and a chain. */
  predicate Granted(reply: ConnectReply) {
    reply.accounts.Success? && |reply.accounts.value| > 0 && reply.chainId.Success?
  }

  /** The disconnect as written, on a connected manager that reconnects
      automatically with a non-zero budget: the adapter's `disconnected` event
      passes the still-open gate and schedules a retry, the manager ends
      flagged yet with that retry pending, and when it fires the flag is
      cleared and, if the wallet still grants the account, the adapter is
      connected again. */
  lemma DisconnectAsWrittenSchedulesReconnect(m: CM.Manager, detection: Detection, reply: ConnectReply)
    requires CM.Inv(m)
    requires m.slot.Some? && m.slot.value.wired && m.slot.value.adapter.state.core.isConnected
    requires !m.state.core.manuallyDisconnected
    requires m.config.autoReconnect && m.config.maxReconnectAttempts > 0
    ensures var b := CM.DisconnectAsWritten(m).next;
            && b.state.core.manuallyDisconnected && b.timer.Some?
            && !Dispatch(b, ManagerTimer(detection, reply)).next.state.core.manuallyDisconnected
    ensures var b := CM.DisconnectAsWritten(m).next;
            m.slot.value.adapter.provider && Granted(reply) ==>
              Dispatch(b, ManagerTimer(detection, reply)).next.slot.value.adapter.state.core.isConnected
  {
    var a := MetaMaskAdapter.Disconnect(m.slot.value.adapter);
    var held := m.(timer := None, attempts := 0).(slot := Some(m.slot.value.(adapter := a.next)));
    CM.HearSchedules(held, a.events);
  }
}
