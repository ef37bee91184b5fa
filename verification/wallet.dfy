/** The `WalletState` record shared by WalletManager and MetaMaskAdapter
    (MetaMaskState only re-declares fields WalletState already has), the
    updates both revisions write into it, and the provider replies both
    consume. The provider handle itself is reduced to its presence. */
module Wallet {
  import opened Wrappers
  import opened StateStore
  import Decimal

  datatype WalletState = WalletState(
    core: Core,
    isConnecting: bool,
    provider: bool,
    isDetected: bool)

  const Initial: WalletState := WalletState(Fresh, false, false, false)

  datatype WalletPatch = WalletPatch(
    core: CorePatch,
    isConnecting: Option<bool>,
    provider: Option<bool>,
    isDetected: Option<bool>)

  /** An update that writes only fields of the common core. */
  function Only(p: CorePatch): WalletPatch {
    WalletPatch(p, None, None, None)
  }

  function Apply(s: WalletState, p: WalletPatch): (r: WalletState)
    ensures r.core == Merge(s.core, p.core)
  {
    WalletState(
      Merge(s.core, p.core),
      Override(p.isConnecting, s.isConnecting),
      Override(p.provider, s.provider),
      Override(p.isDetected, s.isDetected))
  }

  /** Every full-state notification in `evs` carries a consistent record. */
  predicate AllConsistent(evs: seq<Event<WalletState>>) {
    forall i :: 0 <= i < |evs| && evs[i].StateChangedEvent? ==> Consistent(evs[i].state.core)
  }

  /** Every full-state notification in `evs` carries a record whose
      `manuallyDisconnected` flag is set. */
  predicate AllManual(evs: seq<Event<WalletState>>) {
    forall i :: 0 <= i < |evs| && evs[i].StateChangedEvent? ==> evs[i].state.core.manuallyDisconnected
  }

  lemma AllConsistentAppend(a: seq<Event<WalletState>>, b: seq<Event<WalletState>>)
    ensures AllConsistent(a + b) <==> AllConsistent(a) && AllConsistent(b)
  {
    var ab := a + b;
    assert forall i :: 0 <= i < |a| ==> ab[i] == a[i];
    assert forall i :: 0 <= i < |b| ==> ab[|a| + i] == b[i];
  }

  lemma AllManualAppend(a: seq<Event<WalletState>>, b: seq<Event<WalletState>>)
    ensures AllManual(a + b) <==> AllManual(a) && AllManual(b)
  {
    var ab := a + b;
    assert forall i :: 0 <= i < |a| ==> ab[i] == a[i];
    assert forall i :: 0 <= i < |b| ==> ab[|a| + i] == b[i];
  }

  // ----- provider replies, supplied as inputs -----

  /** A call into the provider: its reply or the thrown error's message. */
  type Rpc<T> = Result<T, string>

  /** `eth_accounts` then `eth_chainId`, as a connection check issues them;
      `ProbeFailed` when either throws. */
  datatype Probe = Probe(accounts: seq<string>, chainId: string) | ProbeFailed

  /** What `detectProvider` meets: no `window`, no provider, a thrown import or
      lookup, or a provider whose initial connection check answers `initial`. */
  datatype Detection = NoWindow | NotDetected | DetectionFailed | Detected(initial: Probe)

  /** `eth_requestAccounts` and the `eth_chainId` that follows a non-empty answer. */
  datatype ConnectReply = ConnectReply(accounts: Rpc<seq<string>>, chainId: Rpc<string>)

  /** `error.message || fallback`. */
  function MessageOr(message: string, fallback: string): (r: string)
    ensures message != "" ==> r == message
    ensures message == "" ==> r == fallback
  {
    if message != "" then message else fallback
  }

  // ----- the updates both revisions write -----

  const WalletDisconnected := "Wallet disconnected"
  const MaxAttemptsReached := "Max reconnection attempts reached. Please refresh the page."

  /** Provider `accountsChanged(accounts)` once past the manual-disconnect gate. */
  function AccountsChangedPatch(accounts: seq<string>): (p: WalletPatch)
    ensures Pairs(p.core)
  {
    if |accounts| == 0 then
      Only(Untouched.(isConnected := Some(false), account := Some(None), status := Some(Disconnected),
                      error := Some(Some(WalletDisconnected))))
    else
      Only(Untouched.(isConnected := Some(true), account := Some(Some(accounts[0])), status := Some(Connected),
                      error := Some(None), manuallyDisconnected := Some(false)))
  }

  /** Provider `chainChanged(chainId)`. */
  function ChainChangedPatch(chainId: string): (p: WalletPatch)
    ensures Pairs(p.core)
    ensures p.core.isConnected.None? && p.core.account.None?
  {
    Only(Untouched.(chainId := Some(Some(chainId))))
  }

  /** Provider `connect` once past the gate: status only, no account. */
  const ProviderConnectPatch: WalletPatch :=
    Only(Untouched.(status := Some(Connected), error := Some(None), manuallyDisconnected := Some(false)))

  /** Provider `disconnect` once past the gate. */
  const ProviderDisconnectPatch: WalletPatch :=
    Only(Untouched.(isConnected := Some(false), account := Some(None), status := Some(Disconnected),
                    error := Some(Some(WalletDisconnected))))

  /** The record a user disconnect leaves, in the try and in the catch path. */
  const UserDisconnectPatch: WalletPatch :=
    WalletPatch(
      CorePatch(Some(false), Some(None), Some(None), Some(Disconnected), Some(None), Some(true)),
      Some(false), Some(false), Some(false))

  /** Entering `connecting` at the start of a connect. */
  const ConnectingPatch: WalletPatch :=
    WalletPatch(Untouched.(manuallyDisconnected := Some(false), error := Some(None), status := Some(Connecting)),
                Some(true), None, None)

  /** A connect whose account request answered `account` first and whose chain
      request answered `chainId`. */
  function ConnectedPatch(account: string, chainId: string): (p: WalletPatch)
    ensures Pairs(p.core)
  {
    WalletPatch(
      CorePatch(Some(true), Some(Some(account)), Some(Some(chainId)), Some(Connected), Some(None), Some(false)),
      Some(false), None, None)
  }

  /** A connect that threw with `message`. */
  function ConnectFailedPatch(message: string): (p: WalletPatch)
    ensures Pairs(p.core)
    ensures p.core.isConnected.None? && p.core.account.None?
  {
    WalletPatch(Untouched.(error := Some(Some(message)), status := Some(Disconnected)), Some(false), None, None)
  }

  /** The update of a connection check that got `accounts` and `chainId`, given
      the flag at the time of writing. */
  function CheckPatch(accounts: seq<string>, chainId: string, manual: bool): (p: WalletPatch)
    ensures Pairs(p.core)
  {
    var live := |accounts| > 0;
    Only(CorePatch(
      Some(live),
      Some(if live then Some(accounts[0]) else None),
      Some(if live then Some(chainId) else None),
      Some(if live then Connected else Disconnected),
      Some(None),
      Some(if live then false else manual)))
  }

  /** A detection that found no provider, with the message it records. */
  function NotDetectedPatch(message: string): (p: WalletPatch)
    ensures Pairs(p.core)
    ensures p.core.isConnected.None? && p.core.account.None?
  {
    WalletPatch(Untouched.(error := Some(Some(message))), None, None, Some(false))
  }

  /** A detection that found a provider. */
  const DetectedPatch: WalletPatch := WalletPatch(Untouched.(error := Some(None)), None, Some(true), Some(true))

  /** An exhausted reconnect budget. */
  const MaxAttemptsPatch: WalletPatch :=
    Only(Untouched.(error := Some(Some(MaxAttemptsReached)), status := Some(Disconnected)))

  /** `Reconnecting... Attempt n/max`. */
  function ReconnectingMessage(n: nat, max: nat): string {
    "Reconnecting... Attempt " + Decimal.NatToString(n) + "/" + Decimal.NatToString(max)
  }

  function ReconnectingPatch(n: nat, max: nat): (p: WalletPatch)
    ensures Pairs(p.core)
    ensures p.core.isConnected.None? && p.core.account.None?
  {
    Only(Untouched.(status := Some(Reconnecting), error := Some(Some(ReconnectingMessage(n, max)))))
  }

  /** The record as the `reconnecting` update leaves it: status
      `reconnecting` and the message naming attempt `n` of `max`. */
  function ShowAttempt(s: WalletState, n: nat, max: nat): WalletState {
    s.(core := s.core.(status := Reconnecting, error := Some(ReconnectingMessage(n, max))))
  }

  function FlagPatch(manual: bool): (p: WalletPatch)
    ensures Pairs(p.core)
  {
    Only(Untouched.(manuallyDisconnected := Some(manual)))
  }

  /** Every update above writes `isConnected` and `account` together. */
  lemma ConstantPatchesPair()
    ensures Pairs(ProviderConnectPatch.core) && Pairs(ProviderDisconnectPatch.core)
    ensures Pairs(UserDisconnectPatch.core) && Pairs(ConnectingPatch.core)
    ensures Pairs(DetectedPatch.core) && Pairs(MaxAttemptsPatch.core)
  {
  }
}
