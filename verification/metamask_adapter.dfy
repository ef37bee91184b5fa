/** The MetaMask adapter: the lifecycle of one injected provider seen through
    the adapter layer. Every transition is a pure function from the adapter
    record (plus the provider's replies) to the next record and the events the
    adapter emitted on the way. */
module MetaMaskAdapter {
  import opened Wrappers
  import opened StateStore
  import opened Wallet
  import WalletAdapter

  /** The adapter object. `provider` is the private `this.provider` field,
      which disconnect does not clear (only the `provider` key of the state
      record is nulled); `listening` says whether the adapter's handlers are
      attached to the provider; `polling` whether the 10-second connection check
      runs; `timer` is the delay of the pending reconnect timer, if any. */
  datatype Adapter = Adapter(
    config: WalletAdapter.Config,
    state: WalletState,
    provider: bool,
    listening: bool,
    polling: bool,
    attempts: nat,
    timer: Option<nat>)

  type AdapterStep = Step<Adapter, WalletState>
  type AdapterAnswer = Answer<Adapter, WalletState>

  /** The bookkeeping the handlers rely on: handlers are only ever attached to a
      provider the adapter holds. */
  predicate Valid(a: Adapter) {
    && Consistent(a.state.core)
    && (a.listening ==> a.provider)
  }

  /** A freshly constructed adapter. */
  function New(config: WalletAdapter.Config): (a: Adapter)
    ensures a.state == Wallet.Initial && !a.state.core.isConnected && a.state.core.account.None?
    ensures !a.state.core.manuallyDisconnected && a.state.core.status == Disconnected
    ensures !a.provider && !a.listening && !a.polling && a.attempts == 0 && a.timer.None?
    ensures Valid(a)
  {
    Adapter(config, Wallet.Initial, false, false, false, 0, None)
  }

  /** `setState(p)` on the adapter. */
  function Set(a: Adapter, p: WalletPatch): (r: AdapterStep)
    ensures r.next == a.(state := Apply(a.state, p))
    ensures r.events == Notify(a.state.core, p.core, r.next.state)
    ensures Valid(a) && Pairs(p.core) ==> Valid(r.next) && AllConsistent(r.events)
    ensures p.core.manuallyDisconnected == Some(true) ==> AllManual(r.events)
    ensures p.core.isConnected != Some(false) ==> !HasDisconnected(r.events)
  {
    var next := a.(state := Apply(a.state, p));
    if Pairs(p.core) && Consistent(a.state.core) then MergeKeepsConsistent(a.state.core, p.core); Step(next, Notify(a.state.core, p.core, next.state))
    else Step(next, Notify(a.state.core, p.core, next.state))
  }

  function Unchanged(a: Adapter): (r: AdapterStep)
    ensures r.next == a && r.events == []
  {
    Step(a, [])
  }

  // ----- connection check and detection -----

  /** The second half of `checkConnectionStatus`, run when the RPC replies
      arrive: the flag is read again at that point, so a user disconnect that
      happened in between blocks a connected update. */
  function FinishCheck(a: Adapter, accounts: seq<string>, chainId: string): (r: AdapterAnswer)
    ensures a.state.core.manuallyDisconnected && |accounts| > 0 ==> r.next == a && r.events == [] && !r.result
    ensures !(a.state.core.manuallyDisconnected && |accounts| > 0) ==>
              && r.result == (|accounts| > 0)
              && r.next.state.core.isConnected == (|accounts| > 0)
              && r.next.state.core.account == (if |accounts| > 0 then Some(accounts[0]) else None)
              && r.next.state.core.chainId == (if |accounts| > 0 then Some(chainId) else None)
              && r.next.state.core.status == (if |accounts| > 0 then Connected else Disconnected)
              && r.next.state.core.error.None?
              && (|accounts| > 0 ==> !r.next.state.core.manuallyDisconnected)
              && (|accounts| == 0 ==> r.next.state.core.manuallyDisconnected == a.state.core.manuallyDisconnected)
    ensures r.next.timer == a.timer && r.next.config == a.config && r.next.attempts == a.attempts
    ensures r.next.polling == a.polling && r.next.provider == a.provider && r.next.listening == a.listening
    ensures Valid(a) ==> Valid(r.next) && AllConsistent(r.events)
  {
    var live := |accounts| > 0;
    if a.state.core.manuallyDisconnected && live then Answer(a, [], false)
    else
      var s := Set(a, CheckPatch(accounts, chainId, a.state.core.manuallyDisconnected));
      Answer(s.next, s.events, live)
  }

  /** `checkConnectionStatus`: nothing happens without a provider, when the
      flag is already set on entry, or when either RPC throws. */
  function CheckConnectionStatus(a: Adapter, probe: Probe): (r: AdapterAnswer)
    ensures !a.provider || a.state.core.manuallyDisconnected || probe.ProbeFailed? ==>
              r.next == a && r.events == [] && !r.result
    ensures a.provider && !a.state.core.manuallyDisconnected && probe.Probe? ==>
              && r.result == (|probe.accounts| > 0)
              && r.next.state.core.isConnected == (|probe.accounts| > 0)
              && r.next.state.core.account == (if |probe.accounts| > 0 then Some(probe.accounts[0]) else None)
              && r.next.state.core.chainId == (if |probe.accounts| > 0 then Some(probe.chainId) else None)
              && r.next.state.core.status == (if |probe.accounts| > 0 then Connected else Disconnected)
              && r.next.state.core.error.None?
              && !r.next.state.core.manuallyDisconnected
    ensures r.next.timer == a.timer && r.next.config == a.config && r.next.attempts == a.attempts
    ensures r.next.polling == a.polling && r.next.provider == a.provider && r.next.listening == a.listening
    ensures Valid(a) ==> Valid(r.next) && AllConsistent(r.events)
  {
    if !a.provider || a.state.core.manuallyDisconnected then Answer(a, [], false)
    else match probe
      case ProbeFailed => Answer(a, [], false)
      case Probe(accounts, chainId) => FinishCheck(a, accounts, chainId)
  }

  /** `detectProvider`. */
  function DetectProvider(a: Adapter, d: Detection): (r: AdapterAnswer)
    ensures r.result <==> d.Detected?
    ensures r.result ==> r.next.provider && r.next.listening && r.next.state.isDetected
    ensures !r.result ==> r.next.provider == a.provider && !r.next.state.isDetected && r.next.state.core.error.Some?
    ensures !r.result ==> r.next.state.core == a.state.core.(error := r.next.state.core.error)
    ensures r.next.timer == a.timer && r.next.config == a.config && r.next.attempts == a.attempts
    ensures Valid(a) ==> Valid(r.next) && AllConsistent(r.events)
  {
    match d
    case NoWindow =>
      var s := Set(a, NotDetectedPatch("MetaMask not available in this environment")); Answer(s.next, s.events, false)
    case NotDetected =>
      var s := Set(a, NotDetectedPatch("MetaMask not detected")); Answer(s.next, s.events, false)
    case DetectionFailed =>
      var s := Set(a, NotDetectedPatch("Failed to detect MetaMask")); Answer(s.next, s.events, false)
    case Detected(initial) =>
      var s := Set(a.(provider := true), DetectedPatch);
      var c := CheckConnectionStatus(s.next.(listening := true), initial);
      AllConsistentAppend(s.events, c.events);
      Answer(c.next, s.events + c.events, true)
  }

  // ----- commands -----

  /** The opening of `connect` once a provider is held: the flag is cleared
      (in its own update when it was set) and the record enters `connecting`. */
  function EnterConnecting(a: Adapter): (r: AdapterStep)
    ensures r.next == a.(state := a.state.(
              core := a.state.core.(manuallyDisconnected := false, error := None, status := Connecting),
              isConnecting := true))
    ensures Valid(a) ==> Valid(r.next) && AllConsistent(r.events)
    ensures !HasDisconnected(r.events)
  {
    ConstantPatchesPair();
    var s0 := if a.state.core.manuallyDisconnected then Set(a, FlagPatch(false)) else Unchanged(a);
    var s1 := Set(s0.next, ConnectingPatch);
    HasAppend(s0.events, s1.events);
    AllConsistentAppend(s0.events, s1.events);
    Step(s1.next, s0.events + s1.events)
  }

  /** The rest of `connect`: the account request's reply decides. */
  function Settle(a: Adapter, prior: seq<Event<WalletState>>, reply: ConnectReply): (r: AdapterAnswer)
    ensures r.result <==> reply.accounts.Success? && |reply.accounts.value| > 0 && reply.chainId.Success?
    ensures r.result ==>
              r.next == a.(state := Apply(a.state, ConnectedPatch(reply.accounts.value[0], reply.chainId.value)),
                           attempts := 0, polling := true)
    ensures !r.result ==> exists m :: r.next == a.(state := Apply(a.state, ConnectFailedPatch(m)))
    ensures Valid(a) && AllConsistent(prior) ==> Valid(r.next) && AllConsistent(r.events)
    ensures !HasDisconnected(prior) ==> !HasDisconnected(r.events)
  {
    match reply.accounts
    case Failure(message) => Fail(a, prior, MessageOr(message, "Failed to connect MetaMask"))
    case Success(accounts) =>
      if |accounts| == 0 then Fail(a, prior, "No accounts found")
      else match reply.chainId
        case Failure(message) => Fail(a, prior, MessageOr(message, "Failed to connect MetaMask"))
        case Success(chainId) =>
          var s := Set(a, ConnectedPatch(accounts[0], chainId));
          HasAppend(prior, s.events);
          AllConsistentAppend(prior, s.events);
          Answer(s.next.(attempts := 0, polling := true), prior + s.events, true)
  }

  /** The part of `connect` that runs once a provider is held. */
  function RequestAccounts(a: Adapter, reply: ConnectReply): (r: AdapterAnswer)
    ensures r.result <==> reply.accounts.Success? && |reply.accounts.value| > 0 && reply.chainId.Success?
    ensures r.result ==>
              && r.next.state.core.isConnected
              && r.next.state.core.account == Some(reply.accounts.value[0])
              && r.next.state.core.chainId == Some(reply.chainId.value)
              && r.next.state.core.status == Connected
              && r.next.state.core.error.None?
              && !r.next.state.core.manuallyDisconnected
              && !r.next.state.isConnecting
              && r.next.attempts == 0 && r.next.polling
    ensures !r.result ==>
              && r.next.state.core.status == Disconnected
              && r.next.state.core.error.Some?
              && !r.next.state.isConnecting
              && !r.next.state.core.manuallyDisconnected
              && r.next.state.core.isConnected == a.state.core.isConnected
              && r.next.state.core.account == a.state.core.account
              && r.next.attempts == a.attempts && r.next.polling == a.polling
    ensures r.next.provider == a.provider && r.next.listening == a.listening && r.next.timer == a.timer
    ensures r.next.config == a.config
    ensures Valid(a) ==> Valid(r.next) && AllConsistent(r.events)
    ensures !HasDisconnected(r.events)
  {
    var s := EnterConnecting(a);
    Settle(s.next, s.events, reply)
  }

  /** The `catch` of `connect`: leave `connecting` with the error and return false. */
  function Fail(a: Adapter, prior: seq<Event<WalletState>>, message: string): (r: AdapterAnswer)
    ensures r.next == a.(state := Apply(a.state, ConnectFailedPatch(message)))
    ensures !r.result && r.next.state.core.error == Some(message)
    ensures Valid(a) && AllConsistent(prior) ==> Valid(r.next) && AllConsistent(r.events)
    ensures !HasDisconnected(prior) ==> !HasDisconnected(r.events)
  {
    var s := Set(a, ConnectFailedPatch(message));
    HasAppend(prior, s.events);
    AllConsistentAppend(prior, s.events);
    Answer(s.next, prior + s.events, false)
  }

  /** `connect()`: detection first when no provider is held (a failed detection
      returns false before the flag is touched), then the account request. */
  function Connect(a: Adapter, d: Detection, reply: ConnectReply): (r: AdapterAnswer)
    ensures r.result <==> (a.provider || d.Detected?) && reply.accounts.Success?
                          && |reply.accounts.value| > 0 && reply.chainId.Success?
    ensures r.result ==>
              && r.next.state.core.isConnected
              && r.next.state.core.account == Some(reply.accounts.value[0])
              && r.next.state.core.chainId == Some(reply.chainId.value)
              && r.next.state.core.status == Connected
              && !r.next.state.core.manuallyDisconnected
              && r.next.attempts == 0
    ensures !a.provider && !d.Detected? ==>
              r.next.state.core.manuallyDisconnected == a.state.core.manuallyDisconnected
    ensures (a.provider || d.Detected?) ==> !r.next.state.core.manuallyDisconnected
    ensures a.provider && !r.result ==>
              && r.next.state.core.status == Disconnected
              && r.next.state.core.error.Some?
              && !r.next.state.isConnecting
              && r.next.state.core.isConnected == a.state.core.isConnected
              && r.next.state.core.account == a.state.core.account
    ensures !r.result ==> r.next.attempts == a.attempts
    ensures r.next.timer == a.timer && r.next.config == a.config
    ensures Valid(a) ==> Valid(r.next) && AllConsistent(r.events)
    ensures a.provider ==> !HasDisconnected(r.events)
  {
    if a.provider then RequestAccounts(a, reply) else DetectAndRequest(a, d, reply)
  }

  /** `connect()` without a provider: detection, then the account request when
      a provider turned up. */
  function DetectAndRequest(a: Adapter, d: Detection, reply: ConnectReply): (r: AdapterAnswer)
    ensures r.result <==> d.Detected? && reply.accounts.Success? && |reply.accounts.value| > 0 && reply.chainId.Success?
    ensures r.result ==>
              && r.next.state.core.isConnected
              && r.next.state.core.account == Some(reply.accounts.value[0])
              && r.next.state.core.chainId == Some(reply.chainId.value)
              && r.next.state.core.status == Connected
              && !r.next.state.core.manuallyDisconnected
              && r.next.attempts == 0
    ensures !d.Detected? ==> r.next.state.core.manuallyDisconnected == a.state.core.manuallyDisconnected
    ensures d.Detected? ==> !r.next.state.core.manuallyDisconnected
    ensures !r.result ==> r.next.attempts == a.attempts
    ensures r.next.timer == a.timer && r.next.config == a.config
    ensures Valid(a) ==> Valid(r.next) && AllConsistent(r.events)
  {
    var det := DetectProvider(a, d);
    if !det.result then det
    else
      var c := RequestAccounts(det.next, reply);
      AllConsistentAppend(det.events, c.events);
      Answer(c.next, det.events + c.events, c.result)
  }

  /** `disconnect()`: stop polling, cancel the reconnect timer, reset the
      attempt counter, detach from the provider and write the disconnected,
      manually-disconnected record. Both the try and the catch path end here. */
  function Disconnect(a: Adapter): (r: AdapterStep)
    ensures !r.next.state.core.isConnected && r.next.state.core.account.None? && r.next.state.core.chainId.None?
    ensures r.next.state.core.error.None? && r.next.state.core.status == Disconnected
    ensures r.next.state.core.manuallyDisconnected
    ensures !r.next.state.provider && !r.next.state.isDetected && !r.next.state.isConnecting
    ensures r.next.attempts == 0 && r.next.timer.None? && !r.next.polling && !r.next.listening
    ensures r.next.provider == a.provider && r.next.config == a.config
    ensures HasDisconnected(r.events) <==> a.state.core.isConnected
    ensures !HasConnected(r.events) && AllManual(r.events)
    ensures Valid(a) ==> Valid(r.next) && AllConsistent(r.events)
  {
    ConstantPatchesPair();
    Set(a.(polling := false, timer := None, attempts := 0, listening := false), UserDisconnectPatch)
  }

  /** `resetManualDisconnect()`: only the flag changes. */
  function ResetManualDisconnect(a: Adapter): (r: AdapterStep)
    ensures r.next == a.(state := a.state.(core := a.state.core.(manuallyDisconnected := false)))
    ensures Valid(a) ==> Valid(r.next) && AllConsistent(r.events)
  {
    Set(a, FlagPatch(false))
  }

  /** `switchNetwork(chainId)`: true when a provider is held and the switch
      request succeeds; the state is left to the `chainChanged` event. */
  function SwitchNetwork(a: Adapter, accepted: bool): (r: AdapterAnswer)
    ensures r.next == a && r.events == []
    ensures r.result <==> a.provider && accepted
  {
    Answer(a, [], a.provider && accepted)
  }

  /** `destroy()`: polling stops, the reconnect timer is cleared and the provider
      handlers are removed. (The listener registry is cleared too; the caller
      observes that by no longer hearing events.) */
  function Destroy(a: Adapter): (r: Adapter)
    ensures r.state == a.state && !r.polling && r.timer.None? && !r.listening
    ensures Valid(a) ==> Valid(r)
  {
    a.(polling := false, timer := None, listening := false)
  }

  // ----- provider events -----

  /** Provider `accountsChanged`. */
  function OnAccountsChanged(a: Adapter, accounts: seq<string>): (r: AdapterStep)
    ensures !a.listening || a.state.core.manuallyDisconnected ==> r.next == a && r.events == []
    ensures a.listening && !a.state.core.manuallyDisconnected && |accounts| == 0 ==>
              && !r.next.state.core.isConnected && r.next.state.core.account.None?
              && r.next.state.core.status == Disconnected
              && r.next.state.core.error == Some(WalletDisconnected)
    ensures a.listening && !a.state.core.manuallyDisconnected && |accounts| > 0 ==>
              && r.next.state.core.isConnected && r.next.state.core.account == Some(accounts[0])
              && r.next.state.core.status == Connected && r.next.state.core.error.None?
    ensures Valid(a) ==> Valid(r.next) && AllConsistent(r.events)
  {
    if !a.listening || a.state.core.manuallyDisconnected then Unchanged(a)
    else Set(a, AccountsChangedPatch(accounts))
  }

  /** Provider `chainChanged`: not gated, writes only `chainId`. */
  function OnChainChanged(a: Adapter, chainId: string): (r: AdapterStep)
    ensures !a.listening ==> r.next == a && r.events == []
    ensures a.listening ==> r.next == a.(state := a.state.(core := a.state.core.(chainId := Some(chainId))))
    ensures Valid(a) ==> Valid(r.next) && AllConsistent(r.events)
  {
    if !a.listening then Unchanged(a) else Set(a, ChainChangedPatch(chainId))
  }

  /** Provider `connect`: status `connected` but no account is recorded. */
  function OnProviderConnect(a: Adapter): (r: AdapterStep)
    ensures !a.listening || a.state.core.manuallyDisconnected ==> r.next == a && r.events == []
    ensures a.listening && !a.state.core.manuallyDisconnected ==>
              && r.next.state.core.status == Connected
              && r.next.state.core.isConnected == a.state.core.isConnected
              && r.next.state.core.account == a.state.core.account
    ensures Valid(a) ==> Valid(r.next) && AllConsistent(r.events)
  {
    ConstantPatchesPair();
    if !a.listening || a.state.core.manuallyDisconnected then Unchanged(a) else Set(a, ProviderConnectPatch)
  }

  /** Provider `disconnect`. */
  function OnProviderDisconnect(a: Adapter): (r: AdapterStep)
    ensures !a.listening || a.state.core.manuallyDisconnected ==> r.next == a && r.events == []
    ensures a.listening && !a.state.core.manuallyDisconnected ==>
              && !r.next.state.core.isConnected && r.next.state.core.account.None?
              && r.next.state.core.status == Disconnected
              && r.next.state.core.error == Some(WalletDisconnected)
    ensures Valid(a) ==> Valid(r.next) && AllConsistent(r.events)
  {
    ConstantPatchesPair();
    if !a.listening || a.state.core.manuallyDisconnected then Unchanged(a) else Set(a, ProviderDisconnectPatch)
  }

  /** One tick of the 10-second interval: the check runs only while the
      interval is active, a provider is held, the record is connected and the
      flag is clear. It is how a wallet that went away while connected is
      noticed: an empty account list disconnects the record. */
  function Tick(a: Adapter, probe: Probe): (r: AdapterStep)
    ensures !TickRuns(a) ==> r.next == a && r.events == []
    ensures TickRuns(a) && probe.ProbeFailed? ==> r.next == a && r.events == []
    ensures TickRuns(a) && probe.Probe? ==>
              && r.next.state.core.isConnected == (|probe.accounts| > 0)
              && r.next.state.core.account == (if |probe.accounts| > 0 then Some(probe.accounts[0]) else None)
              && r.next.state.core.status == (if |probe.accounts| > 0 then Connected else Disconnected)
              && r.next.state.core.error.None?
              && !r.next.state.core.manuallyDisconnected
              && (|probe.accounts| == 0 ==> HasDisconnected(r.events))
    ensures r.next.polling == a.polling && r.next.timer == a.timer && r.next.attempts == a.attempts
    ensures Valid(a) ==> Valid(r.next) && AllConsistent(r.events)
  {
    if TickRuns(a) then
      var c := CheckConnectionStatus(a, probe); Step(c.next, c.events)
    else Unchanged(a)
  }

  /** The interval callback's guard. */
  predicate TickRuns(a: Adapter) {
    a.polling && a.provider && a.state.core.isConnected && !a.state.core.manuallyDisconnected
  }

  // ----- reconnection -----

  function Pow2(n: nat): (p: nat)
    ensures p >= 1
  {
    if n == 0 then 1 else 2 * Pow2(n - 1)
  }

  /** `reconnectDelay * 2^(n-1)` for the n-th attempt. */
  function Backoff(delay: nat, n: nat): nat
    requires n >= 1
  {
    delay * Pow2(n - 1)
  }

  /** Each attempt waits twice as long as the one before. */
  lemma BackoffDoubles(delay: nat, n: nat)
    requires n >= 1
    ensures Backoff(delay, n + 1) == 2 * Backoff(delay, n)
    ensures Backoff(delay, 1) == delay
  {
  }

  /** `attemptReconnect()`: blocked by the flag; at the budget it records the
      terminal error; otherwise it retries. */
  function AttemptReconnect(a: Adapter, d: Detection, reply: ConnectReply): (r: AdapterAnswer)
    ensures a.state.core.manuallyDisconnected ==> r.next == a && r.events == [] && !r.result
    ensures !a.state.core.manuallyDisconnected && a.attempts >= a.config.maxReconnectAttempts ==>
              && !r.result && r.next.timer == a.timer && r.next.attempts == a.attempts
              && r.next.state.core.error == Some(MaxAttemptsReached)
              && r.next.state.core.status == Disconnected
    ensures !a.state.core.manuallyDisconnected && a.attempts < a.config.maxReconnectAttempts ==>
              && (r.result <==> (a.provider || d.Detected?) && reply.accounts.Success?
                                && |reply.accounts.value| > 0 && reply.chainId.Success?)
              && (r.result ==> r.next.state.core.isConnected && r.next.state.core.status == Connected
                               && r.next.state.core.account == Some(reply.accounts.value[0]))
              && (r.result ==> r.next.attempts == 0 && r.next.timer == a.timer)
              && (!r.result ==> r.next.attempts == a.attempts + 1
                                && r.next.timer == Some(Backoff(a.config.reconnectDelay, a.attempts + 1)))
              && HasStatus(r.events, Reconnecting)
    ensures r.next.attempts <= a.config.maxReconnectAttempts || r.next.attempts == a.attempts
    ensures r.next.config == a.config
    ensures Valid(a) ==> Valid(r.next) && AllConsistent(r.events)
  {
    if a.state.core.manuallyDisconnected then Answer(a, [], false)
    else if a.attempts >= a.config.maxReconnectAttempts then GiveUp(a)
    else Retry(a, d, reply)
  }

  /** An attempt within the budget is announced before anything else: the
      first event shows status `reconnecting` and the message naming the
      attempt's number and the budget. */
  lemma AttemptShowsProgress(a: Adapter, d: Detection, reply: ConnectReply)
    requires !a.state.core.manuallyDisconnected && a.attempts < a.config.maxReconnectAttempts
    ensures var r := AttemptReconnect(a, d, reply);
            |r.events| > 0 && r.events[0] == StateChangedEvent(ShowAttempt(a.state, a.attempts + 1, a.config.maxReconnectAttempts))
  {
    var s := Announce(a);
    var c := Conclude(s.next, d, reply, Backoff(a.config.reconnectDelay, a.attempts + 1));
    assert (s.events + c.events)[0] == s.events[0];
  }

  /** The budget is spent: record the terminal error and stop. */
  function GiveUp(a: Adapter): (r: AdapterAnswer)
    ensures !r.result && r.next.timer == a.timer && r.next.attempts == a.attempts && r.next.config == a.config
    ensures r.next.state.core.error == Some(MaxAttemptsReached) && r.next.state.core.status == Disconnected
    ensures r.next.state.core.isConnected == a.state.core.isConnected
    ensures Valid(a) ==> Valid(r.next) && AllConsistent(r.events)
  {
    ConstantPatchesPair();
    var s := Set(a, MaxAttemptsPatch);
    Answer(s.next, s.events, false)
  }

  /** One attempt within the budget: count it, show it, connect, and after a
      failure schedule the next attempt with exponential backoff. */
  function Retry(a: Adapter, d: Detection, reply: ConnectReply): (r: AdapterAnswer)
    requires !a.state.core.manuallyDisconnected && a.attempts < a.config.maxReconnectAttempts
    ensures r.result <==> (a.provider || d.Detected?) && reply.accounts.Success?
                          && |reply.accounts.value| > 0 && reply.chainId.Success?
    ensures r.result ==>
              && r.next.state.core.isConnected
              && r.next.state.core.account == Some(reply.accounts.value[0])
              && r.next.state.core.chainId == Some(reply.chainId.value)
              && r.next.state.core.status == Connected
    ensures a.provider && !r.result ==> r.next.state.core.status == Disconnected && r.next.state.core.error.Some?
    ensures r.result ==> r.next.attempts == 0 && r.next.timer == a.timer
    ensures !r.result ==> r.next.attempts == a.attempts + 1
                          && r.next.timer == Some(Backoff(a.config.reconnectDelay, a.attempts + 1))
    ensures HasStatus(r.events, Reconnecting)
    ensures r.next.config == a.config
    ensures Valid(a) ==> Valid(r.next) && AllConsistent(r.events)
  {
    var s := Announce(a);
    var c := Conclude(s.next, d, reply, Backoff(a.config.reconnectDelay, a.attempts + 1));
    var evs := s.events + c.events;
    AllConsistentAppend(s.events, c.events);
    assert evs[0] == s.events[0];
    Answer(c.next, evs, c.result)
  }

  /** The rest of an attempt: connect; on success reset the counter, on
      failure schedule the next attempt after `delay`. */
  function Conclude(b: Adapter, d: Detection, reply: ConnectReply, delay: nat): (r: AdapterAnswer)
    ensures r.result <==> (b.provider || d.Detected?) && reply.accounts.Success?
                          && |reply.accounts.value| > 0 && reply.chainId.Success?
    ensures r.result ==>
              && r.next.state.core.isConnected
              && r.next.state.core.account == Some(reply.accounts.value[0])
              && r.next.state.core.chainId == Some(reply.chainId.value)
              && r.next.state.core.status == Connected
              && r.next.attempts == 0 && r.next.timer == b.timer
    ensures b.provider && !r.result ==> r.next.state.core.status == Disconnected && r.next.state.core.error.Some?
    ensures !r.result ==> r.next.attempts == b.attempts && r.next.timer == Some(delay)
    ensures r.next.config == b.config
    ensures Valid(b) ==> Valid(r.next) && AllConsistent(r.events)
  {
    var c := Connect(b, d, reply);
    if c.result then Answer(c.next.(attempts := 0), c.events, true)
    else Answer(c.next.(timer := Some(delay)), c.events, false)
  }

  /** The start of an attempt: the counter goes up and the record shows the
      attempt; nothing else about the adapter changes. */
  function Announce(a: Adapter): (r: AdapterStep)
    ensures r.next == a.(attempts := a.attempts + 1, state := ShowAttempt(a.state, a.attempts + 1, a.config.maxReconnectAttempts))
    ensures |r.events| > 0 && r.events[0] == StateChangedEvent(ShowAttempt(a.state, a.attempts + 1, a.config.maxReconnectAttempts))
    ensures HasStatus(r.events, Reconnecting)
    ensures Valid(a) ==> Valid(r.next) && AllConsistent(r.events)
  {
    var n := a.attempts + 1;
    var s := Set(a.(attempts := n), ReconnectingPatch(n, a.config.maxReconnectAttempts));
    assert s.events[0].state.core.status == Reconnecting;
    s
  }

  /** Some full-state notification in `evs` shows status `status`. */
  predicate HasStatus(evs: seq<Event<WalletState>>, status: Status) {
    exists i :: 0 <= i < |evs| && evs[i].StateChangedEvent? && evs[i].state.core.status == status
  }

  /** The reconnect timer fires: it is spent, and unless the flag was set in the
      meantime the next attempt runs. */
  function FireTimer(a: Adapter, d: Detection, reply: ConnectReply): (r: AdapterStep)
    ensures a.timer.None? ==> r.next == a && r.events == []
    ensures a.timer.Some? && a.state.core.manuallyDisconnected ==> r.next == a.(timer := None) && r.events == []
    ensures Valid(a) ==> Valid(r.next) && AllConsistent(r.events)
  {
    if a.timer.None? then Unchanged(a)
    else
      var b := a.(timer := None);
      if b.state.core.manuallyDisconnected then Unchanged(b)
      else var c := AttemptReconnect(b, d, reply); Step(c.next, c.events)
  }

  // ----- properties over several steps -----

  /** While the user's disconnect stands, no provider event except
      `chainChanged` changes anything, and `chainChanged` changes only the
      chain id. */
  lemma ManualFlagGatesProviderEvents(a: Adapter, accounts: seq<string>, chainId: string)
    requires a.state.core.manuallyDisconnected
    ensures OnAccountsChanged(a, accounts) == Step(a, [])
    ensures OnProviderConnect(a) == Step(a, [])
    ensures OnProviderDisconnect(a) == Step(a, [])
    ensures OnChainChanged(a, chainId).next.state.core == a.state.core.(chainId := OnChainChanged(a, chainId).next.state.core.chainId)
    ensures OnChainChanged(a, chainId).next.state.core.manuallyDisconnected
  {
  }

  /** A connection check interrupted by a user disconnect does not reconnect:
      the replies arrive after `Disconnect` and are dropped. */
  lemma DisconnectDuringCheckWins(a: Adapter, accounts: seq<string>, chainId: string)
    requires |accounts| > 0
    ensures var b := Disconnect(a).next;
            FinishCheck(b, accounts, chainId).next == b
  {
  }

  /** After a user disconnect the adapter is disconnected and stays so under
      any provider events: a later `connect` command is needed. */
  lemma DisconnectIsTerminal(a: Adapter, accounts: seq<string>, chainId: string, probe: Probe)
    ensures var b := Disconnect(a).next;
            && OnAccountsChanged(b, accounts).next == b
            && OnProviderConnect(b).next == b
            && OnProviderDisconnect(b).next == b
            && Tick(b, probe).next == b
            && !OnChainChanged(b, chainId).next.state.core.isConnected
  {
  }

  /** The attempt counter never passes the configured maximum. */
  lemma AttemptsBounded(a: Adapter, d: Detection, reply: ConnectReply)
    requires a.attempts <= a.config.maxReconnectAttempts
    ensures AttemptReconnect(a, d, reply).next.attempts <= a.config.maxReconnectAttempts
  {
  }
}
