/** The `setState` chokepoint shared by the three revisions of the connection
    lifecycle (ConnectionManager, BaseWalletAdapter, WalletManager): a partial
    update is merged into the state record, a `stateChanged` notification
    carrying the new record is emitted, and then one point event per field that
    actually changed. */
module StateStore {
  import opened Wrappers

  /** `connectionStatus`. */
  datatype Status = Disconnected | Connecting | Connected | Reconnecting

  /** The fields every revision's state record carries. */
  datatype Core = Core(
    isConnected: bool,
    account: Option<string>,
    chainId: Option<string>,
    status: Status,
    error: Option<string>,
    manuallyDisconnected: bool)

  const Fresh: Core := Core(false, None, None, Disconnected, None, false)

  /** A partial update as passed to `setState`: `None` is a key the update
      object leaves out, `Some(v)` overwrites; for a nullable field `Some(None)`
      writes `null`, which JavaScript still counts as present. */
  datatype CorePatch = CorePatch(
    isConnected: Option<bool>,
    account: Option<Option<string>>,
    chainId: Option<Option<string>>,
    status: Option<Status>,
    error: Option<Option<string>>,
    manuallyDisconnected: Option<bool>)

  const Untouched: CorePatch := CorePatch(None, None, None, None, None, None)

  /** Events a state holder emits; `S` is the holder's full state record. */
  datatype Event<S> =
    | StateChangedEvent(state: S)
    | ConnectedEvent(account: Option<string>, chainId: Option<string>)
    | DisconnectedEvent
    | ErrorEvent(message: Option<string>)
    | ChainChangedEvent(chainId: Option<string>)

  /** The result of an operation that returns nothing. */
  datatype Step<M, S> = Step(next: M, events: seq<Event<S>>)

  /** The result of an operation that returns a boolean. */
  datatype Answer<M, S> = Answer(next: M, events: seq<Event<S>>, result: bool)

  function Override<T>(update: Option<T>, prior: T): T {
    if update.Some? then update.value else prior
  }

  /** `{ ...c, ...p }`. */
  function Merge(c: Core, p: CorePatch): (r: Core)
    ensures p == Untouched ==> r == c
  {
    Core(
      Override(p.isConnected, c.isConnected),
      Override(p.account, c.account),
      Override(p.chainId, c.chainId),
      Override(p.status, c.status),
      Override(p.error, c.error),
      Override(p.manuallyDisconnected, c.manuallyDisconnected))
  }

  /** `{ ...p, ...q }`: q's keys win. */
  function Then(p: CorePatch, q: CorePatch): CorePatch {
    CorePatch(
      if q.isConnected.Some? then q.isConnected else p.isConnected,
      if q.account.Some? then q.account else p.account,
      if q.chainId.Some? then q.chainId else p.chainId,
      if q.status.Some? then q.status else p.status,
      if q.error.Some? then q.error else p.error,
      if q.manuallyDisconnected.Some? then q.manuallyDisconnected else p.manuallyDisconnected)
  }

  /** Two merges in a row are one merge of the combined update, and merging the
      same update again changes nothing. */
  lemma MergeThen(c: Core, p: CorePatch, q: CorePatch)
    ensures Merge(Merge(c, p), q) == Merge(c, Then(p, q))
    ensures Merge(Merge(c, p), p) == Merge(c, p)
  {
  }

  predicate HasConnected<S>(evs: seq<Event<S>>) {
    exists i :: 0 <= i < |evs| && evs[i].ConnectedEvent?
  }

  predicate HasDisconnected<S>(evs: seq<Event<S>>) {
    exists i :: 0 <= i < |evs| && evs[i].DisconnectedEvent?
  }

  predicate HasError<S>(evs: seq<Event<S>>) {
    exists i :: 0 <= i < |evs| && evs[i].ErrorEvent?
  }

  predicate HasChainChanged<S>(evs: seq<Event<S>>) {
    exists i :: 0 <= i < |evs| && evs[i].ChainChangedEvent?
  }

  /** Every event in `evs` is a point event whose payload is the one `setState`
      takes from the update `p` applied to `prior`. */
  predicate Points<S>(evs: seq<Event<S>>, prior: Core, p: CorePatch) {
    forall i :: 0 <= i < |evs| ==>
      && !evs[i].StateChangedEvent?
      && (evs[i].ConnectedEvent? ==>
            evs[i].account == Merge(prior, p).account && evs[i].chainId == Merge(prior, p).chainId)
      && (evs[i].ErrorEvent? ==> p.error == Some(evs[i].message))
      && (evs[i].ChainChangedEvent? ==> p.chainId == Some(evs[i].chainId))
  }

  lemma PointsAppend<S>(a: seq<Event<S>>, b: seq<Event<S>>, prior: Core, p: CorePatch)
    requires Points(a, prior, p) && Points(b, prior, p)
    ensures Points(a + b, prior, p)
  {
    var ab := a + b;
    assert forall i :: 0 <= i < |a| ==> ab[i] == a[i];
    assert forall i :: |a| <= i < |ab| ==> ab[i] == b[i - |a|];
  }

  /** `connected` or `disconnected`, when `isConnected` changed. */
  function LinkEvent<S>(prior: Core, p: CorePatch): (evs: seq<Event<S>>)
    ensures |evs| == (if p.isConnected.Some? && p.isConnected.value != prior.isConnected then 1 else 0)
    ensures Points(evs, prior, p) && forall i :: 0 <= i < |evs| ==> Rank(evs[i]) == 1
    ensures HasConnected(evs) <==> p.isConnected == Some(true) && !prior.isConnected
    ensures HasDisconnected(evs) <==> p.isConnected == Some(false) && prior.isConnected
    ensures !HasError(evs) && !HasChainChanged(evs)
  {
    var now := Merge(prior, p);
    HasSingle<S>(ConnectedEvent(now.account, now.chainId));
    HasSingle<S>(DisconnectedEvent);
    if p.isConnected.Some? && p.isConnected.value != prior.isConnected then
      (if p.isConnected.value then [ConnectedEvent(now.account, now.chainId)] else [DisconnectedEvent])
    else []
  }

  /** `error`, when `error` changed. */
  function ErrorEvents<S>(prior: Core, p: CorePatch): (evs: seq<Event<S>>)
    ensures |evs| == (if p.error.Some? && p.error.value != prior.error then 1 else 0)
    ensures Points(evs, prior, p) && forall i :: 0 <= i < |evs| ==> Rank(evs[i]) == 2
    ensures HasError(evs) <==> p.error.Some? && p.error.value != prior.error
    ensures !HasConnected(evs) && !HasDisconnected(evs) && !HasChainChanged(evs)
  {
    HasSingle<S>(ErrorEvent(p.error.GetOr(None)));
    if p.error.Some? && p.error.value != prior.error then [ErrorEvent(p.error.value)] else []
  }

  /** `chainChanged`, when `chainId` changed. */
  function ChainEvents<S>(prior: Core, p: CorePatch): (evs: seq<Event<S>>)
    ensures |evs| == (if p.chainId.Some? && p.chainId.value != prior.chainId then 1 else 0)
    ensures Points(evs, prior, p) && forall i :: 0 <= i < |evs| ==> Rank(evs[i]) == 3
    ensures HasChainChanged(evs) <==> p.chainId.Some? && p.chainId.value != prior.chainId
    ensures !HasConnected(evs) && !HasDisconnected(evs) && !HasError(evs)
  {
    HasSingle<S>(ChainChangedEvent(p.chainId.GetOr(None)));
    if p.chainId.Some? && p.chainId.value != prior.chainId then [ChainChangedEvent(p.chainId.value)] else []
  }

  /** The point events `setState(p)` emits after `stateChanged`: `connected`
      or `disconnected` when `isConnected` changed, `error` when `error`
      changed and `chainChanged` when `chainId` changed, each at most once, in
      that order, with the payload taken from the update. */
  function Derived<S>(prior: Core, p: CorePatch): (evs: seq<Event<S>>)
    ensures |evs| == (if p.isConnected.Some? && p.isConnected.value != prior.isConnected then 1 else 0)
                   + (if p.error.Some? && p.error.value != prior.error then 1 else 0)
                   + (if p.chainId.Some? && p.chainId.value != prior.chainId then 1 else 0)
    ensures Increasing(evs) && Points(evs, prior, p)
    ensures forall i :: 0 <= i < |evs| ==> Rank(evs[i]) > 0
    ensures HasConnected(evs) <==> p.isConnected == Some(true) && !prior.isConnected
    ensures HasDisconnected(evs) <==> p.isConnected == Some(false) && prior.isConnected
    ensures HasError(evs) <==> p.error.Some? && p.error.value != prior.error
    ensures HasChainChanged(evs) <==> p.chainId.Some? && p.chainId.value != prior.chainId
  {
    var link: seq<Event<S>> := LinkEvent(prior, p);
    var err: seq<Event<S>> := ErrorEvents(prior, p);
    var chain: seq<Event<S>> := ChainEvents(prior, p);
    HasAppend(link, err);
    HasAppend(link + err, chain);
    PointsAppend(link, err, prior, p);
    PointsAppend(link + err, chain, prior, p);
    Layered(link, err, chain);
    link + err + chain
  }

  /** The notifications `setState(p)` emits from the old record `prior`, where
      `snapshot` is the holder's whole new record: `stateChanged` first, then
      the derived point events (see `NotifyOrder` for their number and order). */
  function Notify<S>(prior: Core, p: CorePatch, snapshot: S): (evs: seq<Event<S>>)
    ensures 1 <= |evs| <= 4
    ensures evs[0] == StateChangedEvent(snapshot)
    ensures forall i :: 1 <= i < |evs| ==> !evs[i].StateChangedEvent?
    ensures HasConnected(evs) <==> p.isConnected == Some(true) && !prior.isConnected
    ensures HasDisconnected(evs) <==> p.isConnected == Some(false) && prior.isConnected
    ensures HasError(evs) <==> p.error.Some? && p.error.value != prior.error
    ensures HasChainChanged(evs) <==> p.chainId.Some? && p.chainId.value != prior.chainId
    ensures forall i :: 0 <= i < |evs| && evs[i].ConnectedEvent? ==>
              evs[i].account == Merge(prior, p).account && evs[i].chainId == Merge(prior, p).chainId
    ensures forall i :: 0 <= i < |evs| && evs[i].ErrorEvent? ==> p.error == Some(evs[i].message)
    ensures forall i :: 0 <= i < |evs| && evs[i].ChainChangedEvent? ==> p.chainId == Some(evs[i].chainId)
  {
    var head: seq<Event<S>> := [StateChangedEvent(snapshot)];
    var tail: seq<Event<S>> := Derived(prior, p);
    HasSingle(StateChangedEvent(snapshot));
    HasAppend(head, tail);
    var evs := head + tail;
    assert forall i :: 1 <= i < |evs| ==> evs[i] == tail[i - 1];
    evs
  }

  /** `setState` emits one event per changed field after `stateChanged`, no
      kind twice, in the order `stateChanged`, `connected`/`disconnected`,
      `error`, `chainChanged`. */
  lemma NotifyOrder<S>(prior: Core, p: CorePatch, snapshot: S)
    ensures |Notify(prior, p, snapshot)| ==
              1 + (if p.isConnected.Some? && p.isConnected.value != prior.isConnected then 1 else 0)
                + (if p.error.Some? && p.error.value != prior.error then 1 else 0)
                + (if p.chainId.Some? && p.chainId.value != prior.chainId then 1 else 0)
    ensures Increasing(Notify(prior, p, snapshot))
  {
    var tail: seq<Event<S>> := Derived(prior, p);
    assert Notify(prior, p, snapshot) == [StateChangedEvent(snapshot)] + tail;
    IncreasingAppend([StateChangedEvent(snapshot)], tail);
  }

  /** Where an event kind comes in the order `setState` emits them. */
  function Rank<S>(e: Event<S>): nat {
    match e
    case StateChangedEvent(_) => 0
    case ConnectedEvent(_, _) => 1
    case DisconnectedEvent => 1
    case ErrorEvent(_) => 2
    case ChainChangedEvent(_) => 3
  }

  /** Strictly increasing ranks: no kind twice, and kinds in emission order. */
  predicate Increasing<S>(evs: seq<Event<S>>) {
    forall i, j :: 0 <= i < j < |evs| ==> Rank(evs[i]) < Rank(evs[j])
  }

  lemma IncreasingAppend<S>(a: seq<Event<S>>, b: seq<Event<S>>)
    requires Increasing(a) && Increasing(b)
    requires forall x, y :: x in a && y in b ==> Rank(x) < Rank(y)
    ensures Increasing(a + b)
  {
    var ab := a + b;
    assert forall i :: 0 <= i < |a| ==> ab[i] == a[i];
    assert forall i :: |a| <= i < |ab| ==> ab[i] == b[i - |a|];
  }

  /** The three groups of point events, each of one rank, form one strictly
      increasing run. */
  lemma Layered<S>(link: seq<Event<S>>, err: seq<Event<S>>, chain: seq<Event<S>>)
    requires |link| <= 1 && forall i :: 0 <= i < |link| ==> Rank(link[i]) == 1
    requires |err| <= 1 && forall i :: 0 <= i < |err| ==> Rank(err[i]) == 2
    requires |chain| <= 1 && forall i :: 0 <= i < |chain| ==> Rank(chain[i]) == 3
    ensures Increasing(link + err + chain)
    ensures forall i :: 0 <= i < |link + err + chain| ==> Rank((link + err + chain)[i]) > 0
  {
    IncreasingAppend(link, err);
    IncreasingAppend(link + err, chain);
    var all := link + err + chain;
    assert forall i :: 0 <= i < |all| ==> all[i] in link || all[i] in err || all[i] in chain;
  }

  lemma HasSingle<S>(e: Event<S>)
    ensures HasConnected([e]) <==> e.ConnectedEvent?
    ensures HasDisconnected([e]) <==> e.DisconnectedEvent?
    ensures HasError([e]) <==> e.ErrorEvent?
    ensures HasChainChanged([e]) <==> e.ChainChangedEvent?
  {
    assert [e][0] == e;
  }

  /** Each kind of point event occurs in a concatenation exactly when it occurs
      in one of the parts. */
  lemma HasAppend<S>(a: seq<Event<S>>, b: seq<Event<S>>)
    ensures HasConnected(a + b) <==> HasConnected(a) || HasConnected(b)
    ensures HasDisconnected(a + b) <==> HasDisconnected(a) || HasDisconnected(b)
    ensures HasError(a + b) <==> HasError(a) || HasError(b)
    ensures HasChainChanged(a + b) <==> HasChainChanged(a) || HasChainChanged(b)
  {
    var ab := a + b;
    assert forall i :: 0 <= i < |a| ==> ab[i] == a[i];
    assert forall i :: 0 <= i < |b| ==> ab[|a| + i] == b[i];
  }

  /** The invariant every revision keeps: connected exactly when an account is
      recorded. (Status `connected` without an account is reachable and is
      deliberately not part of it.) */
  predicate Consistent(c: Core) {
    c.isConnected <==> c.account.Some?
  }

  /** An update that writes `isConnected` and `account` together, and
      consistently, or neither. */
  predicate Pairs(p: CorePatch) {
    && (p.isConnected.Some? <==> p.account.Some?)
    && (p.isConnected.Some? ==> (p.isConnected.value <==> p.account.value.Some?))
  }

  lemma MergeKeepsConsistent(c: Core, p: CorePatch)
    requires Consistent(c) && Pairs(p)
    ensures Consistent(Merge(c, p))
  {
  }
}
