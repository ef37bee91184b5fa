/** ConnectionManager, the newest revision: a manager with its own
    `ConnectionState` that owns one wallet adapter, listens to the adapter's
    events, mirrors the adapter's record into its own, and runs its own
    reconnect policy. The adapter is the MetaMask adapter; whatever it emits
    while it performs an operation is heard by the manager's listeners in
    order, as the synchronous emitters of the source deliver it. */
module ConnectionManager {
  import opened Wrappers
  import opened StateStore
  import opened Wallet
  import WalletAdapter
  import MetaMaskAdapter

  // ----- configuration -----

  datatype Config = Config(
    autoConnect: bool,
    autoReconnect: bool,
    maxReconnectAttempts: nat,
    reconnectDelay: nat,
    showNotifications: bool)

  /** A supplied configuration object: `None` for a key it leaves out. */
  datatype Options = Options(
    autoConnect: Option<bool>,
    autoReconnect: Option<bool>,
    maxReconnectAttempts: Option<nat>,
    reconnectDelay: Option<nat>,
    showNotifications: Option<bool>)

  const NoOptions := Options(None, None, None, None, None)

  /** The constructor's defaults, overridden key by key by the supplied object:
      no auto-connect, no auto-reconnect, no attempts, no delay. */
  function Configure(o: Options): (c: Config)
    ensures o.autoConnect.None? ==> !c.autoConnect
    ensures o.autoReconnect.None? ==> !c.autoReconnect
    ensures o.maxReconnectAttempts.None? ==> c.maxReconnectAttempts == 0
    ensures o.reconnectDelay.None? ==> c.reconnectDelay == 0
    ensures o.showNotifications.None? ==> c.showNotifications
    ensures o.autoConnect.Some? ==> c.autoConnect == o.autoConnect.value
    ensures o.autoReconnect.Some? ==> c.autoReconnect == o.autoReconnect.value
    ensures o.maxReconnectAttempts.Some? ==> c.maxReconnectAttempts == o.maxReconnectAttempts.value
    ensures o.reconnectDelay.Some? ==> c.reconnectDelay == o.reconnectDelay.value
    ensures o.showNotifications.Some? ==> c.showNotifications == o.showNotifications.value
  {
    Config(
      o.autoConnect.GetOr(false),
      o.autoReconnect.GetOr(false),
      o.maxReconnectAttempts.GetOr(0),
      o.reconnectDelay.GetOr(0),
      o.showNotifications.GetOr(true))
  }

  /** The configuration handed to a new MetaMask adapter: all four keys are
      passed explicitly, so none of the adapter's own defaults survives. */
  function AdapterConfig(c: Config): (ac: WalletAdapter.Config)
    ensures ac.autoConnect == c.autoConnect && ac.autoReconnect == c.autoReconnect
    ensures ac.maxReconnectAttempts == c.maxReconnectAttempts && ac.reconnectDelay == c.reconnectDelay
  {
    WalletAdapter.Configure(WalletAdapter.Options(
      Some(c.autoConnect), Some(c.autoReconnect), Some(c.maxReconnectAttempts), Some(c.reconnectDelay)))
  }

  // ----- state -----

  datatype ConnectionState = ConnectionState(core: Core, walletType: Option<string>)

  datatype ManagerPatch = ManagerPatch(core: CorePatch, walletType: Option<Option<string>>)

  function Also(p: CorePatch): ManagerPatch {
    ManagerPatch(p, None)
  }

  function ApplyPatch(s: ConnectionState, p: ManagerPatch): (r: ConnectionState)
    ensures r.core == Merge(s.core, p.core)
    ensures p.walletType.None? ==> r.walletType == s.walletType
    ensures p.walletType.Some? ==> r.walletType == p.walletType.value
  {
    ConnectionState(Merge(s.core, p.core), Override(p.walletType, s.walletType))
  }

  /** The adapter the manager holds; `wired` says whether the manager's
      listeners are still registered on it (destroying an adapter clears its
      registry). */
  datatype Slot = Slot(adapter: MetaMaskAdapter.Adapter, wired: bool)

  /** The manager object. `timer` is the delay of the pending reconnect timer. */
  datatype Manager = Manager(
    config: Config,
    state: ConnectionState,
    slot: Option<Slot>,
    timer: Option<nat>,
    attempts: nat)

  type ManagerStep = Step<Manager, ConnectionState>
  type ManagerAnswer = Answer<Manager, ConnectionState>

  /** The invariant the manager keeps: connected exactly when an account is
      recorded, the attempt counter within the configured budget, and the held
      adapter's own bookkeeping intact. */
  predicate Inv(m: Manager) {
    && Consistent(m.state.core)
    && m.attempts <= m.config.maxReconnectAttempts
    && (m.slot.Some? ==> MetaMaskAdapter.Valid(m.slot.value.adapter))
  }

  function New(o: Options): (m: Manager)
    ensures m.config == Configure(o) && m.state.core == Fresh && m.state.walletType.None?
    ensures m.slot.None? && m.timer.None? && m.attempts == 0
    ensures Inv(m)
  {
    Manager(Configure(o), ConnectionState(Fresh, None), None, None, 0)
  }

  /** `setState(p)` on the manager. */
  function Set(m: Manager, p: ManagerPatch): (r: ManagerStep)
    ensures r.next == m.(state := ApplyPatch(m.state, p))
    ensures r.events == Notify(m.state.core, p.core, r.next.state)
    ensures Inv(m) && Pairs(p.core) ==> Inv(r.next)
  {
    var next := m.(state := ApplyPatch(m.state, p));
    if Pairs(p.core) && Consistent(m.state.core) then
      MergeKeepsConsistent(m.state.core, p.core); Step(next, Notify(m.state.core, p.core, next.state))
    else Step(next, Notify(m.state.core, p.core, next.state))
  }

  function Unchanged(m: Manager): (r: ManagerStep)
    ensures r.next == m && r.events == []
  {
    Step(m, [])
  }

  // ----- the updates the manager writes -----

  const NoAdapter := "No wallet adapter initialized"
  const ConnectionFailed := "Connection failed"

  /** What the `stateChanged` listener copies from the adapter's record: every
      field it shares with the manager except the flag. */
  function ForwardPatch(c: Core): (p: ManagerPatch)
    ensures Consistent(c) ==> Pairs(p.core)
    ensures p.walletType.None? && p.core.manuallyDisconnected.None?
  {
    Also(CorePatch(Some(c.isConnected), Some(c.account), Some(c.chainId), Some(c.status), Some(c.error), None))
  }

  /** `{ connectionStatus: "disconnected", error: message }`. */
  function FailurePatch(message: string): (p: ManagerPatch)
    ensures Pairs(p.core) && p.core.manuallyDisconnected.None?
  {
    Also(Untouched.(status := Some(Disconnected), error := Some(Some(message))))
  }

  function ErrorPatch(message: string): (p: ManagerPatch)
    ensures Pairs(p.core) && p.core.manuallyDisconnected.None?
  {
    Also(Untouched.(error := Some(Some(message))))
  }

  function FlagPatch(manual: bool): (p: ManagerPatch)
    ensures Pairs(p.core)
  {
    Also(Untouched.(manuallyDisconnected := Some(manual)))
  }

  const ConnectingPatch: ManagerPatch := Also(Untouched.(status := Some(Connecting), error := Some(None)))

  /** The record a user disconnect leaves. */
  const DisconnectedPatch: ManagerPatch :=
    Also(CorePatch(Some(false), Some(None), Some(None), Some(Disconnected), Some(None), Some(true)))

  lemma ConstantPatchesPair()
    ensures Pairs(ConnectingPatch.core) && Pairs(DisconnectedPatch.core)
  {
  }

  // ----- reconnection -----

  /** `handleAutoReconnect()`: blocked by the flag, by a disabled policy or
      without an adapter; at the budget it records the terminal error;
      otherwise it counts the attempt and schedules one retry after
      `reconnectDelay * 2^(attempts-1)`. */
  function HandleAutoReconnect(m: Manager): (r: ManagerStep)
    ensures m.state.core.manuallyDisconnected || !m.config.autoReconnect || m.slot.None? ==>
              r.next == m && r.events == []
    ensures !m.state.core.manuallyDisconnected && m.config.autoReconnect && m.slot.Some?
            && m.attempts >= m.config.maxReconnectAttempts ==>
              && r.next.state.core == m.state.core.(error := Some(MaxAttemptsReached), status := Disconnected)
              && r.next.timer == m.timer && r.next.attempts == m.attempts
    ensures !m.state.core.manuallyDisconnected && m.config.autoReconnect && m.slot.Some?
            && m.attempts < m.config.maxReconnectAttempts ==>
              && r.next == m.(attempts := m.attempts + 1,
                              timer := Some(MetaMaskAdapter.Backoff(m.config.reconnectDelay, m.attempts + 1)))
              && r.events == []
    ensures r.next.config == m.config && r.next.slot == m.slot && r.next.state.walletType == m.state.walletType
    ensures Inv(m) ==> Inv(r.next)
  {
    if m.state.core.manuallyDisconnected || !m.config.autoReconnect || m.slot.None? then Unchanged(m)
    else if m.attempts >= m.config.maxReconnectAttempts then
      Set(m, FailurePatch(MaxAttemptsReached))
    else
      var n := m.attempts + 1;
      Unchanged(m.(attempts := n, timer := Some(MetaMaskAdapter.Backoff(m.config.reconnectDelay, n))))
  }

  // ----- listening to the adapter -----

  /** The manager's listener for one adapter event. */
  function HearOne(m: Manager, e: Event<WalletState>): (r: ManagerStep)
    ensures e.StateChangedEvent? && e.state.core.manuallyDisconnected ==> r.next == m && r.events == []
    ensures e.StateChangedEvent? && !e.state.core.manuallyDisconnected ==>
              && r.next.state.core == m.state.core.(
                   isConnected := e.state.core.isConnected, account := e.state.core.account,
                   chainId := e.state.core.chainId, status := e.state.core.status, error := e.state.core.error)
              && r.next.timer == m.timer && r.next.attempts == m.attempts
    ensures (e.ConnectedEvent? || e.DisconnectedEvent?) && m.state.core.manuallyDisconnected ==>
              r.next == m && r.events == []
    ensures e.ConnectedEvent? && !m.state.core.manuallyDisconnected ==>
              && r.next == m.(attempts := 0, timer := None)
              && r.events == [ConnectedEvent(e.account, e.chainId)]
    ensures e.DisconnectedEvent? && !m.state.core.manuallyDisconnected ==>
              && r.next == HandleAutoReconnect(m).next
              && r.events == [DisconnectedEvent] + HandleAutoReconnect(m).events
    ensures e.ErrorEvent? ==> r.next == m && r.events == [ErrorEvent(e.message)]
    ensures e.ChainChangedEvent? ==> r.next == m && r.events == [ChainChangedEvent(e.chainId)]
    ensures r.next.config == m.config && r.next.slot == m.slot && r.next.state.walletType == m.state.walletType
    ensures r.next.state.core.manuallyDisconnected == m.state.core.manuallyDisconnected
    ensures Inv(m) && (e.StateChangedEvent? ==> Consistent(e.state.core)) ==> Inv(r.next)
  {
    match e
    case StateChangedEvent(s) =>
      if s.core.manuallyDisconnected then Unchanged(m) else Set(m, ForwardPatch(s.core))
    case ConnectedEvent(account, chainId) =>
      if m.state.core.manuallyDisconnected then Unchanged(m)
      else Step(m.(attempts := 0, timer := None), [ConnectedEvent(account, chainId)])
    case DisconnectedEvent =>
      if m.state.core.manuallyDisconnected then Unchanged(m)
      else var h := HandleAutoReconnect(m); Step(h.next, [DisconnectedEvent] + h.events)
    case ErrorEvent(message) => Step(m, [ErrorEvent(message)])
    case ChainChangedEvent(chainId) => Step(m, [ChainChangedEvent(chainId)])
  }

  /** The manager's listeners run over the adapter's events in emission order. */
  function Hear(m: Manager, evs: seq<Event<WalletState>>): (r: ManagerStep)
    ensures r.next.config == m.config && r.next.slot == m.slot && r.next.state.walletType == m.state.walletType
    ensures r.next.state.core.manuallyDisconnected == m.state.core.manuallyDisconnected
    ensures Inv(m) && AllConsistent(evs) ==> Inv(r.next)
    ensures m.state.core.manuallyDisconnected && AllManual(evs) ==> r.next == m
    ensures !m.config.autoReconnect && m.timer.None? ==> r.next.timer.None?
    ensures m.timer.None? && m.attempts == 0 && !HasDisconnected(evs) ==> r.next.timer.None? && r.next.attempts == 0
    decreases |evs|
  {
    if evs == [] then Unchanged(m)
    else
      Split(evs);
      var h := HearOne(m, evs[0]);
      var t := Hear(h.next, evs[1..]);
      Step(t.next, h.events + t.events)
  }

  /** The facts about a non-empty event list that the fold needs about its
      head and its tail. */
  lemma Split(evs: seq<Event<WalletState>>)
    requires evs != []
    ensures AllConsistent(evs) <==> AllConsistent([evs[0]]) && AllConsistent(evs[1..])
    ensures AllManual(evs) <==> AllManual([evs[0]]) && AllManual(evs[1..])
    ensures HasConnected(evs) <==> evs[0].ConnectedEvent? || HasConnected(evs[1..])
    ensures HasDisconnected(evs) <==> evs[0].DisconnectedEvent? || HasDisconnected(evs[1..])
    ensures AllConsistent([evs[0]]) <==> (evs[0].StateChangedEvent? ==> Consistent(evs[0].state.core))
    ensures AllManual([evs[0]]) <==> (evs[0].StateChangedEvent? ==> evs[0].state.core.manuallyDisconnected)
  {
    assert evs == [evs[0]] + evs[1..];
    AllConsistentAppend([evs[0]], evs[1..]);
    AllManualAppend([evs[0]], evs[1..]);
    HasAppend([evs[0]], evs[1..]);
    HasSingle(evs[0]);
    assert [evs[0]][0] == evs[0];
  }

  /** A pending retry survives any run of adapter events without a
      `connected` event: only that listener clears the timer. */
  lemma {:induction false} HearKeepsTimer(m: Manager, evs: seq<Event<WalletState>>)
    requires m.timer.Some? && !HasConnected(evs)
    ensures Hear(m, evs).next.timer.Some?
    decreases |evs|
  {
    if evs != [] {
      Split(evs);
      HearKeepsTimer(HearOne(m, evs[0]).next, evs[1..]);
    }
  }

  /** Adapter events that carry the adapter's flag and include a
      `disconnected` event schedule a retry when they reach a manager whose own
      flag is still clear, whose policy reconnects and whose budget is not
      spent. */
  lemma {:induction false} HearSchedules(m: Manager, evs: seq<Event<WalletState>>)
    requires !m.state.core.manuallyDisconnected && m.config.autoReconnect && m.slot.Some?
    requires m.attempts < m.config.maxReconnectAttempts
    requires AllManual(evs) && !HasConnected(evs) && HasDisconnected(evs)
    ensures Hear(m, evs).next.timer.Some?
    decreases |evs|
  {
    Split(evs);
    var h := HearOne(m, evs[0]);
    if evs[0].DisconnectedEvent? {
      HearKeepsTimer(h.next, evs[1..]);
    } else {
      HearSchedules(h.next, evs[1..]);
    }
  }

  /** The manager after its adapter performed an operation: the adapter is
      replaced by its successor and, while the listeners are attached, the
      events it emitted are heard. */
  function Absorb(m: Manager, a: MetaMaskAdapter.Adapter, evs: seq<Event<WalletState>>): (r: ManagerStep)
    requires m.slot.Some?
    ensures r.next.slot == Some(m.slot.value.(adapter := a))
    ensures r.next.config == m.config && r.next.state.walletType == m.state.walletType
    ensures r.next.state.core.manuallyDisconnected == m.state.core.manuallyDisconnected
    ensures !m.slot.value.wired ==> r.next == m.(slot := Some(m.slot.value.(adapter := a))) && r.events == []
    ensures m.state.core.manuallyDisconnected && AllManual(evs) ==>
              r.next == m.(slot := Some(m.slot.value.(adapter := a)))
    ensures !m.config.autoReconnect && m.timer.None? ==> r.next.timer.None?
    ensures m.timer.None? && m.attempts == 0 && !HasDisconnected(evs) ==> r.next.timer.None? && r.next.attempts == 0
    ensures Inv(m) && MetaMaskAdapter.Valid(a) && AllConsistent(evs) ==> Inv(r.next)
  {
    var held := m.(slot := Some(m.slot.value.(adapter := a)));
    if held.slot.value.wired then Hear(held, evs) else Unchanged(held)
  }

  // ----- commands -----

  /** `connect()` with an adapter held: the flag is cleared (in its own update
      when it was set), the record enters `connecting`, the adapter connects
      while the manager listens, and a failure is recorded afterwards. */
  function ConnectWith(m: Manager, d: Detection, reply: ConnectReply): (r: ManagerAnswer)
    requires m.slot.Some?
    ensures r.result == MetaMaskAdapter.Connect(m.slot.value.adapter, d, reply).result
    ensures r.next.slot == Some(m.slot.value.(adapter := MetaMaskAdapter.Connect(m.slot.value.adapter, d, reply).next))
    ensures !r.next.state.core.manuallyDisconnected
    ensures !r.result ==> r.next.state.core.status == Disconnected && r.next.state.core.error == Some(ConnectionFailed)
    ensures r.next.config == m.config && r.next.state.walletType == m.state.walletType
    ensures && m.timer.None? && m.attempts == 0
            && !HasDisconnected(MetaMaskAdapter.Connect(m.slot.value.adapter, d, reply).events)
            ==> r.next.timer.None? && r.next.attempts == 0
    ensures Inv(m) ==> Inv(r.next)
  {
    ConstantPatchesPair();
    var s0 := if m.state.core.manuallyDisconnected then Set(m, FlagPatch(false)) else Unchanged(m);
    var s1 := Set(s0.next, ConnectingPatch);
    var a := MetaMaskAdapter.Connect(m.slot.value.adapter, d, reply);
    var h := Absorb(s1.next, a.next, a.events);
    if a.result then Answer(h.next, s0.events + s1.events + h.events, true)
    else
      var s2 := Set(h.next, FailurePatch(ConnectionFailed));
      Answer(s2.next, s0.events + s1.events + h.events + s2.events, false)
  }

  /** `connect()`: without an adapter the thrown message is recorded. */
  function Connect(m: Manager, d: Detection, reply: ConnectReply): (r: ManagerAnswer)
    ensures m.slot.None? ==>
              && r.next == m.(state := m.state.(core := m.state.core.(status := Disconnected, error := Some(NoAdapter))))
              && !r.result
    ensures m.slot.Some? ==>
              && r.result == MetaMaskAdapter.Connect(m.slot.value.adapter, d, reply).result
              && r.next.slot == Some(m.slot.value.(adapter := MetaMaskAdapter.Connect(m.slot.value.adapter, d, reply).next))
              && !r.next.state.core.manuallyDisconnected
    ensures m.slot.Some? && !r.result ==>
              r.next.state.core.status == Disconnected && r.next.state.core.error == Some(ConnectionFailed)
    ensures r.next.config == m.config && r.next.state.walletType == m.state.walletType
    ensures Inv(m) ==> Inv(r.next)
  {
    if m.slot.None? then
      var s := Set(m, FailurePatch(NoAdapter)); Answer(s.next, s.events, false)
    else ConnectWith(m, d, reply)
  }

  /** `disconnect()` as the source writes it: the timer is cleared and the
      counter reset, the adapter disconnects while the manager listens, and only
      then is the flag written with the disconnected record. The adapter's
      `disconnected` event therefore reaches a listener whose gate is still
      open. */
  function DisconnectAsWritten(m: Manager): (r: ManagerStep)
    ensures m.slot.None? ==> r.next == m && r.events == []
    ensures m.slot.Some? ==>
              && !r.next.state.core.isConnected && r.next.state.core.account.None?
              && r.next.state.core.status == Disconnected && r.next.state.core.manuallyDisconnected
              && r.next.slot == Some(m.slot.value.(adapter := MetaMaskAdapter.Disconnect(m.slot.value.adapter).next))
    ensures m.slot.Some? && !m.config.autoReconnect ==> r.next.timer.None?
    ensures r.next.config == m.config
    ensures Inv(m) ==> Inv(r.next)
  {
    if m.slot.None? then Unchanged(m)
    else
      ConstantPatchesPair();
      var a := MetaMaskAdapter.Disconnect(m.slot.value.adapter);
      var h := Absorb(m.(timer := None, attempts := 0), a.next, a.events);
      var s := Set(h.next, DisconnectedPatch);
      Step(s.next, h.events + s.events)
  }

  /** `disconnect()` with the flag written before the adapter is told, so that
      the listeners' gate is already closed when the adapter's events arrive:
      no retry is scheduled. */
  function Disconnect(m: Manager): (r: ManagerStep)
    ensures m.slot.None? ==> r.next == m && r.events == []
    ensures m.slot.Some? ==>
              && !r.next.state.core.isConnected && r.next.state.core.account.None?
              && r.next.state.core.chainId.None? && r.next.state.core.error.None?
              && r.next.state.core.status == Disconnected && r.next.state.core.manuallyDisconnected
              && r.next.timer.None? && r.next.attempts == 0
              && r.next.slot == Some(m.slot.value.(adapter := MetaMaskAdapter.Disconnect(m.slot.value.adapter).next))
    ensures r.next.config == m.config && r.next.state.walletType == m.state.walletType
    ensures Inv(m) ==> Inv(r.next)
  {
    if m.slot.None? then Unchanged(m)
    else
      ConstantPatchesPair();
      var s0 := Set(m.(timer := None, attempts := 0), FlagPatch(true));
      var a := MetaMaskAdapter.Disconnect(m.slot.value.adapter);
      var h := Absorb(s0.next, a.next, a.events);
      var s := Set(h.next, DisconnectedPatch);
      Step(s.next, s0.events + h.events + s.events)
  }

  /** `switchNetwork(chainId)`: the adapter decides; a failure of either kind is
      recorded with the prefix. */
  function SwitchNetwork(m: Manager, accepted: bool): (r: ManagerAnswer)
    ensures r.result <==> m.slot.Some? && m.slot.value.adapter.provider && accepted
    ensures r.result ==> r.next == m && r.events == []
    ensures m.slot.None? ==> r.next.state.core == m.state.core.(error := Some("Failed to switch network: " + NoAdapter))
    ensures m.slot.Some? && !r.result ==>
              r.next.state.core == m.state.core.(error := Some("Failed to switch network: Network switch failed"))
    ensures r.next.slot == m.slot && r.next.timer == m.timer && r.next.attempts == m.attempts
    ensures Inv(m) ==> Inv(r.next)
  {
    if m.slot.None? then
      var s := Set(m, ErrorPatch("Failed to switch network: " + NoAdapter)); Answer(s.next, s.events, false)
    else if MetaMaskAdapter.SwitchNetwork(m.slot.value.adapter, accepted).result then Answer(m, [], true)
    else
      var s := Set(m, ErrorPatch("Failed to switch network: Network switch failed")); Answer(s.next, s.events, false)
  }

  /** The scheduled retry fires: its callback calls `connect()` without looking
      at the flag, and `connect()` clears the flag. */
  function FireTimer(m: Manager, d: Detection, reply: ConnectReply): (r: ManagerStep)
    ensures m.timer.None? ==> r.next == m && r.events == []
    ensures m.timer.Some? && m.slot.Some? ==>
              && !r.next.state.core.manuallyDisconnected
              && r.next.slot == Some(m.slot.value.(adapter := MetaMaskAdapter.Connect(m.slot.value.adapter, d, reply).next))
    ensures Inv(m) ==> Inv(r.next)
  {
    if m.timer.None? then Unchanged(m)
    else var c := Connect(m.(timer := None), d, reply); Step(c.next, c.events)
  }

  /** `forceReconnect()`: timer cleared, counter reset, then `connect()`. */
  function ForceReconnect(m: Manager, d: Detection, reply: ConnectReply): (r: ManagerAnswer)
    ensures m.slot.Some? ==> r.result == MetaMaskAdapter.Connect(m.slot.value.adapter, d, reply).result
    ensures m.slot.None? ==> r.next.timer.None? && r.next.attempts == 0 && !r.result
    ensures && m.slot.Some?
            && !HasDisconnected(MetaMaskAdapter.Connect(m.slot.value.adapter, d, reply).events)
            ==> r.next.timer.None? && r.next.attempts == 0
    ensures m.slot.Some? && m.slot.value.adapter.provider ==> r.next.timer.None? && r.next.attempts == 0
    ensures m.slot.Some? ==> !r.next.state.core.manuallyDisconnected
    ensures Inv(m) ==> Inv(r.next)
  {
    Connect(m.(timer := None, attempts := 0), d, reply)
  }

  /** `cancelReconnect()`. */
  function CancelReconnect(m: Manager): (r: Manager)
    ensures r.timer.None? && r.attempts == 0
    ensures r.state == m.state && r.slot == m.slot && r.config == m.config
    ensures Inv(m) ==> Inv(r)
  {
    m.(timer := None, attempts := 0)
  }

  /** `resetManualDisconnect()`: only the flag changes. */
  function ResetManualDisconnect(m: Manager): (r: ManagerStep)
    ensures r.next == m.(state := m.state.(core := m.state.core.(manuallyDisconnected := false)))
    ensures Inv(m) ==> Inv(r.next)
  {
    Set(m, FlagPatch(false))
  }

  /** The message a rejected wallet type throws. */
  function UnsupportedMessage(kind: string): string {
    if kind == "walletconnect" then "WalletConnect adapter not implemented yet"
    else if kind == "coinbase" then "Coinbase adapter not implemented yet"
    else "Unsupported wallet type: " + kind
  }

  /** The adapter held after the old one, if any, was destroyed: still held,
      but no longer heard. */
  function Retire(m: Manager): (r: Manager)
    ensures m.slot.None? ==> r == m
    ensures m.slot.Some? ==> r == m.(slot := Some(Slot(MetaMaskAdapter.Destroy(m.slot.value.adapter), false)))
    ensures Inv(m) ==> Inv(r)
  {
    if m.slot.None? then m else m.(slot := Some(Slot(MetaMaskAdapter.Destroy(m.slot.value.adapter), false)))
  }

  /** `initializeWallet(kind)` up to the optional auto-connect: only
      `"metamask"` installs a new, listened-to adapter; every other kind leaves
      the destroyed old adapter in place. */
  function Install(m: Manager, kind: string): (r: ManagerAnswer)
    ensures r.result <==> kind == "metamask"
    ensures r.result ==>
              && r.next.slot == Some(Slot(MetaMaskAdapter.New(AdapterConfig(m.config)), true))
              && r.next.state.walletType == Some("metamask") && r.next.state.core.error.None?
    ensures !r.result ==>
              && r.next.slot == Retire(m).slot
              && r.next.state.walletType.None?
              && r.next.state.core.error == Some("Failed to initialize " + kind + " wallet: " + UnsupportedMessage(kind))
    ensures r.next.config == m.config && r.next.timer == m.timer && r.next.attempts == m.attempts
    ensures r.next.state.core.manuallyDisconnected == m.state.core.manuallyDisconnected
    ensures Inv(m) ==> Inv(r.next)
  {
    var retired := Retire(m);
    if kind == "metamask" then
      var s := Set(retired.(slot := Some(Slot(MetaMaskAdapter.New(AdapterConfig(m.config)), true))),
                   ManagerPatch(Untouched.(error := Some(None)), Some(Some(kind))));
      Answer(s.next, s.events, true)
    else
      var s := Set(retired, ManagerPatch(Untouched.(error := Some(Some("Failed to initialize " + kind + " wallet: " + UnsupportedMessage(kind)))),
                                      Some(None)));
      Answer(s.next, s.events, false)
  }

  /** `initializeWallet(kind)`: installs the adapter and connects at once when
      the configuration asks for it; the answer does not depend on that
      connection. */
  function InitializeWallet(m: Manager, kind: string, d: Detection, reply: ConnectReply): (r: ManagerAnswer)
    ensures r.result <==> kind == "metamask"
    ensures r.result ==> r.next.slot.Some? && r.next.slot.value.wired && r.next.state.walletType == Some("metamask")
    ensures r.result && !m.config.autoConnect ==>
              r.next.slot == Some(Slot(MetaMaskAdapter.New(AdapterConfig(m.config)), true))
    ensures !r.result ==> r.next == Install(m, kind).next
    ensures r.next.config == m.config
    ensures Inv(m) ==> Inv(r.next)
  {
    var i := Install(m, kind);
    if i.result && m.config.autoConnect then
      var c := Connect(i.next, d, reply);
      Answer(c.next, i.events + c.events, true)
    else i
  }

  /** `destroy()`: the timer is cleared and the adapter destroyed (it stays
      held, unheard). */
  function Destroy(m: Manager): (r: Manager)
    ensures r.timer.None? && r.state == m.state && r.config == m.config
    ensures r.slot.Some? <==> m.slot.Some?
    ensures r.slot.Some? ==> !r.slot.value.wired && !r.slot.value.adapter.listening && !r.slot.value.adapter.polling
    ensures r.slot.Some? ==> r.slot.value.adapter.timer.None?
    ensures Inv(m) ==> Inv(r)
  {
    Retire(m).(timer := None)
  }
}
