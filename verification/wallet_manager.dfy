/** WalletManager, the older stand-alone revision of the lifecycle: the same
    state record and provider handlers as the MetaMask adapter, but it keeps the
    provider handle only in the state record (so a disconnect forces a new
    detection), has no entry guard in its connection check, a fixed budget of 3
    reconnect attempts and a linear back-off. */
module WalletManager {
  import opened Wrappers
  import opened StateStore
  import opened Wallet
  import MetaMaskAdapter

  const MaxReconnectAttempts: nat := 3

  /** `listening`: handlers attached to the provider; `polling`: the
      10-second check runs; `timer`: the pending reconnect delay. */
  datatype Manager = Manager(
    state: WalletState,
    listening: bool,
    polling: bool,
    attempts: nat,
    timer: Option<nat>)

  type ManagerStep = Step<Manager, WalletState>
  type ManagerAnswer = Answer<Manager, WalletState>

  predicate Valid(m: Manager) {
    && Consistent(m.state.core)
    && (m.listening ==> m.state.provider)
  }

  function New(): (m: Manager)
    ensures m.state == Wallet.Initial && m.attempts == 0 && m.timer.None? && !m.polling && !m.listening
    ensures Valid(m)
  {
    Manager(Wallet.Initial, false, false, 0, None)
  }

  /** `setState(p)`. */
  function Set(m: Manager, p: WalletPatch): (r: ManagerStep)
    ensures r.next == m.(state := Apply(m.state, p))
    ensures r.events == Notify(m.state.core, p.core, r.next.state)
    ensures Valid(m) && Pairs(p.core) && (p.provider == Some(false) ==> !m.listening) ==> Valid(r.next) && AllConsistent(r.events)
  {
    var next := m.(state := Apply(m.state, p));
    if Pairs(p.core) && Consistent(m.state.core) then
      MergeKeepsConsistent(m.state.core, p.core); Step(next, Notify(m.state.core, p.core, next.state))
    else Step(next, Notify(m.state.core, p.core, next.state))
  }

  /** No change and no event; the twin of `MetaMaskAdapter.Unchanged`. */
  function Unchanged(m: Manager): (r: ManagerStep)
    ensures r.next == m && r.events == []
  {
    Step(m, [])
  }

  /** `checkConnectionStatus`: nothing without a provider in the record; no
      entry check of the flag; after the replies, a set flag blocks only a
      connected answer. An empty answer is written even while the flag is set,
      and a non-empty one clears it. */
  function CheckConnectionStatus(m: Manager, probe: Probe): (r: ManagerAnswer)
    ensures !m.state.provider || probe.ProbeFailed? ==> r.next == m && r.events == [] && !r.result
    ensures probe.Probe? && m.state.core.manuallyDisconnected && |probe.accounts| > 0 ==>
              r.next == m && r.events == [] && !r.result
    ensures m.state.provider && probe.Probe? && !(m.state.core.manuallyDisconnected && |probe.accounts| > 0) ==>
              && r.result == (|probe.accounts| > 0)
              && r.next.state.core.isConnected == (|probe.accounts| > 0)
              && r.next.state.core.account == (if |probe.accounts| > 0 then Some(probe.accounts[0]) else None)
              && r.next.state.core.chainId == (if |probe.accounts| > 0 then Some(probe.chainId) else None)
              && r.next.state.core.status == (if |probe.accounts| > 0 then Connected else Disconnected)
              && r.next.state.core.error.None?
              && (|probe.accounts| > 0 ==> !r.next.state.core.manuallyDisconnected)
              && (|probe.accounts| == 0 ==> r.next.state.core.manuallyDisconnected == m.state.core.manuallyDisconnected)
    ensures r.next.polling == m.polling && r.next.timer == m.timer && r.next.attempts == m.attempts
    ensures r.next.state.provider == m.state.provider && r.next.listening == m.listening
    ensures Valid(m) ==> Valid(r.next) && AllConsistent(r.events)
  {
    if !m.state.provider then Answer(m, [], false)
    else match probe
    case ProbeFailed => Answer(m, [], false)
    case Probe(accounts, chainId) =>
      var live := |accounts| > 0;
      if m.state.core.manuallyDisconnected && live then Answer(m, [], false)
      else
        var s := Set(m, CheckPatch(accounts, chainId, m.state.core.manuallyDisconnected));
        Answer(s.next, s.events, live)
  }

  /** `detectProvider`. */
  function DetectProvider(m: Manager, d: Detection): (r: ManagerAnswer)
    ensures r.result <==> d.Detected?
    ensures r.result ==> r.next.state.provider && r.next.listening && r.next.state.isDetected
    ensures !r.result ==> r.next.state.provider == m.state.provider && r.next.state.core.error.Some?
    ensures !r.result ==> r.next.state.core == m.state.core.(error := r.next.state.core.error)
    ensures r.next.attempts == m.attempts && r.next.timer == m.timer
    ensures Valid(m) ==> Valid(r.next) && AllConsistent(r.events)
  {
    ConstantPatchesPair();
    match d
    case NoWindow =>
      var s := Set(m, NotDetectedPatch("MetaMask not available in this environment")); Answer(s.next, s.events, false)
    case NotDetected =>
      var s := Set(m, NotDetectedPatch("MetaMask not detected")); Answer(s.next, s.events, false)
    case DetectionFailed =>
      var s := Set(m, NotDetectedPatch("Failed to detect MetaMask")); Answer(s.next, s.events, false)
    case Detected(initial) =>
      var s := Set(m, DetectedPatch);
      var c := CheckConnectionStatus(s.next.(listening := true), initial);
      AllConsistentAppend(s.events, c.events);
      Answer(c.next, s.events + c.events, true)
  }

  /** The account request of `connect` once a provider is known. */
  function RequestAccounts(m: Manager, reply: ConnectReply): (r: ManagerAnswer)
    ensures r.result <==> reply.accounts.Success? && |reply.accounts.value| > 0 && reply.chainId.Success?
    ensures r.result ==>
              && r.next.state.core.isConnected
              && r.next.state.core.account == Some(reply.accounts.value[0])
              && r.next.state.core.chainId == Some(reply.chainId.value)
              && r.next.state.core.status == Connected
              && !r.next.state.core.manuallyDisconnected
              && r.next.attempts == 0 && r.next.polling
    ensures !r.result ==>
              && r.next.state.core.status == Disconnected
              && r.next.state.core.error.Some?
              && !r.next.state.core.manuallyDisconnected
              && r.next.state.core.isConnected == m.state.core.isConnected
              && r.next.attempts == m.attempts
    ensures r.next.timer == m.timer
    ensures Valid(m) ==> Valid(r.next) && AllConsistent(r.events)
  {
    ConstantPatchesPair();
    var s1 := Set(m, ConnectingPatch);
    match reply.accounts
    case Failure(message) => Fail(s1.next, s1.events, MessageOr(message, "Failed to connect wallet"))
    case Success(accounts) =>
      if |accounts| == 0 then Fail(s1.next, s1.events, "No accounts found")
      else match reply.chainId
        case Failure(message) => Fail(s1.next, s1.events, MessageOr(message, "Failed to connect wallet"))
        case Success(chainId) =>
          var s2 := Set(s1.next, ConnectedPatch(accounts[0], chainId));
          AllConsistentAppend(s1.events, s2.events);
          Answer(s2.next.(attempts := 0, polling := true), s1.events + s2.events, true)
  }

  function Fail(m: Manager, prior: seq<Event<WalletState>>, message: string): (r: ManagerAnswer)
    ensures r.next == m.(state := Apply(m.state, ConnectFailedPatch(message)))
    ensures !r.result && r.next.state.core.error == Some(message)
    ensures Valid(m) && AllConsistent(prior) ==> Valid(r.next) && AllConsistent(r.events)
  {
    var s := Set(m, ConnectFailedPatch(message));
    AllConsistentAppend(prior, s.events);
    Answer(s.next, prior + s.events, false)
  }

  /** `connect()`: detection whenever the state record holds no provider. */
  function Connect(m: Manager, d: Detection, reply: ConnectReply): (r: ManagerAnswer)
    ensures r.result <==> (m.state.provider || d.Detected?) && reply.accounts.Success?
                          && |reply.accounts.value| > 0 && reply.chainId.Success?
    ensures r.result ==>
              && r.next.state.core.isConnected
              && r.next.state.core.account == Some(reply.accounts.value[0])
              && r.next.state.core.chainId == Some(reply.chainId.value)
              && r.next.state.core.status == Connected
              && r.next.state.core.error.None?
              && !r.next.state.core.manuallyDisconnected
              && r.next.attempts == 0
    ensures m.state.provider && !r.result ==>
              && r.next.state.core.status == Disconnected
              && r.next.state.core.error.Some?
              && r.next.state.core.isConnected == m.state.core.isConnected
    ensures !m.state.provider && !d.Detected? ==>
              r.next.state.core.manuallyDisconnected == m.state.core.manuallyDisconnected
    ensures !r.result ==> r.next.attempts == m.attempts
    ensures r.next.timer == m.timer
    ensures Valid(m) ==> Valid(r.next) && AllConsistent(r.events)
  {
    if m.state.provider then RequestAccounts(m, reply)
    else
      var det := DetectProvider(m, d);
      if !det.result then det
      else
        var c := RequestAccounts(det.next, reply);
        AllConsistentAppend(det.events, c.events);
        Answer(c.next, det.events + c.events, c.result)
  }

  /** `disconnect()`: the same end record in the try and the catch path. */
  function Disconnect(m: Manager): (r: ManagerStep)
    ensures !r.next.state.core.isConnected && r.next.state.core.account.None? && r.next.state.core.chainId.None?
    ensures r.next.state.core.status == Disconnected && r.next.state.core.manuallyDisconnected
    ensures !r.next.state.provider && !r.next.state.isDetected
    ensures r.next.attempts == 0 && r.next.timer.None? && !r.next.polling && !r.next.listening
    ensures Valid(m) ==> Valid(r.next) && AllConsistent(r.events)
  {
    ConstantPatchesPair();
    Set(m.(polling := false, timer := None, attempts := 0, listening := false), UserDisconnectPatch)
  }

  /** `resetManualDisconnect()`, line for line the adapter's
      `MetaMaskAdapter.ResetManualDisconnect`. */
  function ResetManualDisconnect(m: Manager): (r: ManagerStep)
    ensures r.next == m.(state := m.state.(core := m.state.core.(manuallyDisconnected := false)))
    ensures Valid(m) ==> Valid(r.next) && AllConsistent(r.events)
  {
    Set(m, FlagPatch(false))
  }

  function SwitchNetwork(m: Manager, accepted: bool): (r: ManagerAnswer)
    ensures r.next == m && r.events == []
    ensures r.result <==> m.state.provider && accepted
  {
    Answer(m, [], m.state.provider && accepted)
  }

  /** `destroy()`, the twin of `MetaMaskAdapter.Destroy`. */
  function Destroy(m: Manager): (r: Manager)
    ensures r.state == m.state && !r.polling && r.timer.None? && !r.listening
    ensures Valid(m) ==> Valid(r)
  {
    m.(polling := false, timer := None, listening := false)
  }

  // ----- provider events -----

  function OnAccountsChanged(m: Manager, accounts: seq<string>): (r: ManagerStep)
    ensures !m.listening || m.state.core.manuallyDisconnected ==> r.next == m && r.events == []
    ensures m.listening && !m.state.core.manuallyDisconnected && |accounts| == 0 ==>
              && !r.next.state.core.isConnected && r.next.state.core.account.None?
              && r.next.state.core.status == Disconnected
              && r.next.state.core.error == Some(WalletDisconnected)
    ensures m.listening && !m.state.core.manuallyDisconnected && |accounts| > 0 ==>
              r.next.state.core.isConnected && r.next.state.core.account == Some(accounts[0])
    ensures Valid(m) ==> Valid(r.next) && AllConsistent(r.events)
  {
    if !m.listening || m.state.core.manuallyDisconnected then Unchanged(m)
    else Set(m, AccountsChangedPatch(accounts))
  }

  function OnChainChanged(m: Manager, chainId: string): (r: ManagerStep)
    ensures !m.listening ==> r.next == m
    ensures m.listening ==> r.next == m.(state := m.state.(core := m.state.core.(chainId := Some(chainId))))
    ensures Valid(m) ==> Valid(r.next) && AllConsistent(r.events)
  {
    if !m.listening then Unchanged(m) else Set(m, ChainChangedPatch(chainId))
  }

  function OnProviderConnect(m: Manager): (r: ManagerStep)
    ensures !m.listening || m.state.core.manuallyDisconnected ==> r.next == m && r.events == []
    ensures m.listening && !m.state.core.manuallyDisconnected ==>
              r.next.state.core.status == Connected && r.next.state.core.account == m.state.core.account
    ensures Valid(m) ==> Valid(r.next) && AllConsistent(r.events)
  {
    ConstantPatchesPair();
    if !m.listening || m.state.core.manuallyDisconnected then Unchanged(m) else Set(m, ProviderConnectPatch)
  }

  function OnProviderDisconnect(m: Manager): (r: ManagerStep)
    ensures !m.listening || m.state.core.manuallyDisconnected ==> r.next == m && r.events == []
    ensures m.listening && !m.state.core.manuallyDisconnected ==>
              !r.next.state.core.isConnected && r.next.state.core.error == Some(WalletDisconnected)
    ensures Valid(m) ==> Valid(r.next) && AllConsistent(r.events)
  {
    ConstantPatchesPair();
    if !m.listening || m.state.core.manuallyDisconnected then Unchanged(m) else Set(m, ProviderDisconnectPatch)
  }

  /** One tick of the interval: the check runs only with a provider, a
      connected record and the flag clear, and an empty account list then
      disconnects the record. */
  function Tick(m: Manager, probe: Probe): (r: ManagerStep)
    ensures !TickRuns(m) ==> r.next == m && r.events == []
    ensures TickRuns(m) && probe.ProbeFailed? ==> r.next == m && r.events == []
    ensures TickRuns(m) && probe.Probe? ==>
              && r.next.state.core.isConnected == (|probe.accounts| > 0)
              && r.next.state.core.account == (if |probe.accounts| > 0 then Some(probe.accounts[0]) else None)
              && r.next.state.core.status == (if |probe.accounts| > 0 then Connected else Disconnected)
              && r.next.state.core.error.None?
              && !r.next.state.core.manuallyDisconnected
              && (|probe.accounts| == 0 ==> HasDisconnected(r.events))
    ensures r.next.polling == m.polling && r.next.timer == m.timer && r.next.attempts == m.attempts
    ensures Valid(m) ==> Valid(r.next) && AllConsistent(r.events)
  {
    if TickRuns(m) then
      var c := CheckConnectionStatus(m, probe); Step(c.next, c.events)
    else Unchanged(m)
  }

  /** The interval callback's guard. */
  predicate TickRuns(m: Manager) {
    m.polling && m.state.provider && m.state.core.isConnected && !m.state.core.manuallyDisconnected
  }

  // ----- reconnection -----

  /** The delay before retry n: `2000 * n`, linear despite the comment beside it. */
  function RetryDelay(n: nat): nat {
    2000 * n
  }

  /** Successive retries wait 2000 ms longer each, so from the third retry on
      the wait is shorter than the doubling the adapter uses with the same base. */
  lemma RetryDelayIsLinear(n: nat)
    ensures RetryDelay(n + 1) == RetryDelay(n) + 2000
    ensures RetryDelay(3) < MetaMaskAdapter.Backoff(2000, 3)
  {
  }

  /** `attemptReconnect()`: blocked by the flag; at the budget it records the
      terminal error; otherwise it retries. */
  function AttemptReconnect(m: Manager, d: Detection, reply: ConnectReply): (r: ManagerAnswer)
    ensures m.state.core.manuallyDisconnected ==> r.next == m && r.events == [] && !r.result
    ensures !m.state.core.manuallyDisconnected && m.attempts >= MaxReconnectAttempts ==>
              && !r.result && r.next.timer == m.timer && r.next.attempts == m.attempts
              && r.next.state.core.error == Some(MaxAttemptsReached)
              && r.next.state.core.status == Disconnected
    ensures !m.state.core.manuallyDisconnected && m.attempts < MaxReconnectAttempts ==>
              && (r.result <==> (m.state.provider || d.Detected?) && reply.accounts.Success?
                                && |reply.accounts.value| > 0 && reply.chainId.Success?)
              && (r.result ==> r.next.state.core.isConnected && r.next.state.core.status == Connected
                               && r.next.state.core.account == Some(reply.accounts.value[0]))
              && (r.result ==> r.next.attempts == 0)
              && (!r.result ==> r.next.attempts == m.attempts + 1 && r.next.timer == Some(RetryDelay(m.attempts + 1)))
              && !r.next.state.core.manuallyDisconnected
    ensures r.result ==> !Refused(reply)
    ensures m.attempts <= MaxReconnectAttempts ==> r.next.attempts <= MaxReconnectAttempts
    ensures Valid(m) ==> Valid(r.next) && AllConsistent(r.events)
  {
    if m.state.core.manuallyDisconnected then Answer(m, [], false)
    else if m.attempts >= MaxReconnectAttempts then GiveUp(m)
    else Retry(m, d, reply)
  }

  /** The budget is spent: record the terminal error and stop. */
  function GiveUp(m: Manager): (r: ManagerAnswer)
    ensures !r.result && r.next.timer == m.timer && r.next.attempts == m.attempts
    ensures r.next.state.core.error == Some(MaxAttemptsReached) && r.next.state.core.status == Disconnected
    ensures r.next.state.core.isConnected == m.state.core.isConnected
    ensures Valid(m) ==> Valid(r.next) && AllConsistent(r.events)
  {
    ConstantPatchesPair();
    var s := Set(m, MaxAttemptsPatch);
    Answer(s.next, s.events, false)
  }

  /** One attempt within the budget: count it, show it, connect, and after a
      failure schedule the next one with a linearly growing delay. */
  function Retry(m: Manager, d: Detection, reply: ConnectReply): (r: ManagerAnswer)
    requires !m.state.core.manuallyDisconnected && m.attempts < MaxReconnectAttempts
    ensures r.result <==> (m.state.provider || d.Detected?) && reply.accounts.Success?
                          && |reply.accounts.value| > 0 && reply.chainId.Success?
    ensures r.result ==>
              && r.next.state.core.isConnected
              && r.next.state.core.account == Some(reply.accounts.value[0])
              && r.next.state.core.chainId == Some(reply.chainId.value)
              && r.next.state.core.status == Connected
    ensures m.state.provider && !r.result ==> r.next.state.core.status == Disconnected && r.next.state.core.error.Some?
    ensures r.result ==> r.next.attempts == 0 && !Refused(reply)
    ensures !r.result ==> r.next.attempts == m.attempts + 1 && r.next.timer == Some(RetryDelay(m.attempts + 1))
    ensures !r.next.state.core.manuallyDisconnected && r.next.attempts <= MaxReconnectAttempts
    ensures Valid(m) ==> Valid(r.next) && AllConsistent(r.events)
  {
    var s := Announce(m);
    var c := Conclude(s.next, d, reply, RetryDelay(m.attempts + 1));
    var evs := s.events + c.events;
    AllConsistentAppend(s.events, c.events);
    Answer(c.next, evs, c.result)
  }

  /** The start of an attempt: the counter goes up and the record shows the
      attempt; nothing else about the manager changes. */
  function Announce(m: Manager): (r: ManagerStep)
    ensures r.next == m.(attempts := m.attempts + 1, state := ShowAttempt(m.state, m.attempts + 1, MaxReconnectAttempts))
    ensures |r.events| > 0 && r.events[0] == StateChangedEvent(ShowAttempt(m.state, m.attempts + 1, MaxReconnectAttempts))
    ensures Valid(m) ==> Valid(r.next) && AllConsistent(r.events)
  {
    var n := m.attempts + 1;
    Set(m.(attempts := n), ReconnectingPatch(n, MaxReconnectAttempts))
  }

  /** The rest of an attempt: connect; on success reset the counter, on
      failure schedule the next attempt after `delay`. */
  function Conclude(b: Manager, d: Detection, reply: ConnectReply, delay: nat): (r: ManagerAnswer)
    ensures r.result <==> (b.state.provider || d.Detected?) && reply.accounts.Success?
                          && |reply.accounts.value| > 0 && reply.chainId.Success?
    ensures r.result ==>
              && r.next.state.core.isConnected
              && r.next.state.core.account == Some(reply.accounts.value[0])
              && r.next.state.core.chainId == Some(reply.chainId.value)
              && r.next.state.core.status == Connected
              && r.next.attempts == 0
    ensures b.state.provider && !r.result ==> r.next.state.core.status == Disconnected && r.next.state.core.error.Some?
    ensures !r.result ==> r.next.attempts == b.attempts && r.next.timer == Some(delay)
    ensures !b.state.core.manuallyDisconnected ==> !r.next.state.core.manuallyDisconnected
    ensures Valid(b) ==> Valid(r.next) && AllConsistent(r.events)
  {
    var c := Connect(b, d, reply);
    if c.result then Answer(c.next.(attempts := 0), c.events, true)
    else Answer(c.next.(timer := Some(delay)), c.events, false)
  }

  /** An attempt within the budget is announced before anything else: the
      first event shows status `reconnecting` and the message naming the
      attempt's number and the budget of 3. */
  lemma AttemptShowsProgress(m: Manager, d: Detection, reply: ConnectReply)
    requires !m.state.core.manuallyDisconnected && m.attempts < MaxReconnectAttempts
    ensures var r := AttemptReconnect(m, d, reply);
            |r.events| > 0 && r.events[0] == StateChangedEvent(ShowAttempt(m.state, m.attempts + 1, MaxReconnectAttempts))
  {
    var s := Announce(m);
    var c := Conclude(s.next, d, reply, RetryDelay(m.attempts + 1));
    assert (s.events + c.events)[0] == s.events[0];
  }

  /** The scheduled retry fires: skipped when the flag became true meanwhile. */
  function FireTimer(m: Manager, d: Detection, reply: ConnectReply): (r: ManagerStep)
    ensures m.timer.None? ==> r.next == m && r.events == []
    ensures m.timer.Some? && m.state.core.manuallyDisconnected ==> r.next == m.(timer := None) && r.events == []
    ensures m.timer.Some? && !m.state.core.manuallyDisconnected && m.attempts >= MaxReconnectAttempts ==>
              r.next.timer.None? && r.next.state.core.error == Some(MaxAttemptsReached)
    ensures m.timer.Some? && !m.state.core.manuallyDisconnected && m.attempts < MaxReconnectAttempts
            && Refused(reply) ==>
              && r.next.attempts == m.attempts + 1 && r.next.timer.Some?
              && !r.next.state.core.manuallyDisconnected
    ensures Valid(m) ==> Valid(r.next) && AllConsistent(r.events)
  {
    if m.timer.None? then Unchanged(m)
    else
      var b := m.(timer := None);
      if b.state.core.manuallyDisconnected then Unchanged(b)
      else var c := AttemptReconnect(b, d, reply); Step(c.next, c.events)
  }

  /** Retries that keep failing: the first `k` firings of the pending timer.
      With every attempt refused, the chain stops after the budget: from any
      attempt count within it, enough firings leave no timer pending and the
      terminal error recorded; with no timer pending nothing happens. */
  function FailingRetries(m: Manager, k: nat, reply: ConnectReply): (r: Manager)
    ensures m.timer.None? ==> r == m
    ensures && Refused(reply) && !m.state.core.manuallyDisconnected && m.timer.Some?
            && m.attempts <= MaxReconnectAttempts && k > MaxReconnectAttempts - m.attempts
            ==> Stopped(r)
    decreases k
  {
    if k == 0 then m
    else
      var f := FireTimer(m, NotDetected, reply).next;
      FailingRetries(f, k - 1, reply)
  }

  /** A reply under which every connect fails. */
  predicate Refused(reply: ConnectReply) {
    reply.accounts.Failure? || |reply.accounts.value| == 0
  }

  /** No retry pending and the terminal error recorded. */
  predicate Stopped(m: Manager) {
    m.timer.None? && m.state.core.error == Some(MaxAttemptsReached)
  }

  // ----- properties over several steps -----

  /** While the user's disconnect stands, the gated provider events change
      nothing. */
  lemma ManualFlagGatesProviderEvents(m: Manager, accounts: seq<string>)
    requires m.state.core.manuallyDisconnected
    ensures OnAccountsChanged(m, accounts) == Step(m, [])
    ensures OnProviderConnect(m) == Step(m, [])
    ensures OnProviderDisconnect(m) == Step(m, [])
  {
  }

  /** A connection check that finds no account while the flag is set still
      writes the disconnected record and keeps the flag, unlike the adapter,
      which returns at entry. */
  lemma EmptyCheckWritesDespiteFlag(m: Manager, chainId: string)
    requires m.state.provider && m.state.core.manuallyDisconnected
    ensures var r := CheckConnectionStatus(m, Probe([], chainId));
            && r.events != []
            && r.next.state.core.manuallyDisconnected
            && !r.next.state.core.isConnected
  {
  }

  /** After a user disconnect nothing reconnects by itself: provider events are
      no longer heard and ticks do nothing. */
  lemma DisconnectIsTerminal(m: Manager, accounts: seq<string>, chainId: string, probe: Probe)
    ensures var b := Disconnect(m).next;
            && OnAccountsChanged(b, accounts).next == b
            && OnChainChanged(b, chainId).next == b
            && OnProviderConnect(b).next == b
            && OnProviderDisconnect(b).next == b
            && Tick(b, probe).next == b
  {
  }

  /** A connect after a user disconnect detects the provider again, since the
      disconnect dropped it from the record: without a provider on the page it
      fails with the detection message and the flag still set. */
  lemma ConnectAfterDisconnectRedetects(m: Manager, reply: ConnectReply)
    ensures var r := Connect(Disconnect(m).next, NotDetected, reply);
            && !r.result
            && r.next.state.core.error == Some("MetaMask not detected")
            && r.next.state.core.manuallyDisconnected
  {
  }
}
