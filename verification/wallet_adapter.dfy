/** The shared part of every adapter (`BaseWalletAdapter`): configuration
    defaults, the string-keyed listener registry with `on`/`off`/`emit`, the
    state-change subscription, and the address and chain-id helpers. */
module WalletAdapter {
  import opened Wrappers

  // ----- configuration -----

  datatype Config = Config(
    autoConnect: bool,
    autoReconnect: bool,
    maxReconnectAttempts: nat,
    reconnectDelay: nat)

  /** A supplied configuration object: `None` for a key it leaves out. */
  datatype Options = Options(
    autoConnect: Option<bool>,
    autoReconnect: Option<bool>,
    maxReconnectAttempts: Option<nat>,
    reconnectDelay: Option<nat>)

  const NoOptions := Options(None, None, None, None)

  /** `{ autoConnect: false, autoReconnect: true, maxReconnectAttempts: 3,
      reconnectDelay: 2000, ...config }`. */
  function Configure(o: Options): (c: Config)
    ensures o.autoConnect.None? ==> !c.autoConnect
    ensures o.autoReconnect.None? ==> c.autoReconnect
    ensures o.maxReconnectAttempts.None? ==> c.maxReconnectAttempts == 3
    ensures o.reconnectDelay.None? ==> c.reconnectDelay == 2000
    ensures o.autoConnect.Some? ==> c.autoConnect == o.autoConnect.value
    ensures o.autoReconnect.Some? ==> c.autoReconnect == o.autoReconnect.value
    ensures o.maxReconnectAttempts.Some? ==> c.maxReconnectAttempts == o.maxReconnectAttempts.value
    ensures o.reconnectDelay.Some? ==> c.reconnectDelay == o.reconnectDelay.value
  {
    Config(
      o.autoConnect.GetOr(false),
      o.autoReconnect.GetOr(true),
      o.maxReconnectAttempts.GetOr(3),
      o.reconnectDelay.GetOr(2000))
  }

  /** Supplying every key reproduces exactly the supplied configuration. */
  lemma ConfigureFull(c: Config)
    ensures Configure(Options(Some(c.autoConnect), Some(c.autoReconnect),
                              Some(c.maxReconnectAttempts), Some(c.reconnectDelay))) == c
  {
  }

  // ----- listener registry -----

  /** A callback, identified by reference. */
  type Listener = nat

  /** `eventListeners`: event name to callbacks in registration order. */
  type Registry = map<string, seq<Listener>>

  function Listeners(r: Registry, event: string): seq<Listener> {
    if event in r then r[event] else []
  }

  /** `on(event, callback)`: append, creating the list when needed. */
  function On(r: Registry, event: string, callback: Listener): (r': Registry)
    ensures Listeners(r', event) == Listeners(r, event) + [callback]
    ensures forall e :: e != event ==> Listeners(r', e) == Listeners(r, e)
  {
    r[event := Listeners(r, event) + [callback]]
  }

  /** Position of the first occurrence of `x` in `s` (`indexOf`), if any. */
  function IndexOf(s: seq<Listener>, x: Listener): (r: Option<nat>)
    ensures r.None? <==> x !in s
    ensures r.Some? ==> r.value < |s| && s[r.value] == x && x !in s[..r.value]
  {
    if |s| == 0 then None
    else if s[0] == x then Some(0)
    else
      var rest := IndexOf(s[1..], x);
      if rest.None? then None
      else
        assert s[..rest.value + 1] == [s[0]] + s[1..][..rest.value];
        Some(rest.value + 1)
  }

  /** `off(event, callback)`: remove the first occurrence, if there is one. */
  function Off(r: Registry, event: string, callback: Listener): (r': Registry)
    ensures callback !in Listeners(r, event) ==> Listeners(r', event) == Listeners(r, event)
    ensures callback in Listeners(r, event) ==>
              exists i :: 0 <= i < |Listeners(r, event)|
                && Listeners(r, event)[i] == callback && callback !in Listeners(r, event)[..i]
                && Listeners(r', event) == Listeners(r, event)[..i] + Listeners(r, event)[i + 1..]
    ensures multiset(Listeners(r', event)) == multiset(Listeners(r, event)) - multiset{callback}
    ensures forall e :: e != event ==> Listeners(r', e) == Listeners(r, e)
  {
    if event !in r then r
    else
      var list := r[event];
      match IndexOf(list, callback)
      case None => r
      case Some(i) =>
        var rest := list[..i] + list[i + 1..];
        assert list == list[..i] + [callback] + list[i + 1..];
        r[event := rest]
  }

  /** One callback invocation during `emit`; `threw` records an exception the
      emitter caught and logged. */
  datatype Invocation = Invocation(listener: Listener, threw: bool)

  /** `emit(event)`: every registered callback is invoked in registration order;
      `throws` names the callbacks that throw, and a throwing callback does not
      stop the ones after it. */
  method Emit(r: Registry, event: string, throws: set<Listener>) returns (calls: seq<Invocation>)
    ensures |calls| == |Listeners(r, event)|
    ensures forall i :: 0 <= i < |calls| ==>
              calls[i].listener == Listeners(r, event)[i] && (calls[i].threw <==> calls[i].listener in throws)
  {
    calls := [];
    if event !in r {
      return;
    }
    var list := r[event];
    var k := 0;
    while k < |list|
      invariant 0 <= k <= |list|
      invariant |calls| == k
      invariant forall i :: 0 <= i < k ==> calls[i].listener == list[i] && (calls[i].threw <==> list[i] in throws)
    {
      var threw := list[k] in throws;
      calls := calls + [Invocation(list[k], threw)];
      k := k + 1;
    }
  }

  const StateChanged := "stateChanged"

  /** `onStateChange(callback)`: the registry after subscribing. */
  function Subscribe(r: Registry, callback: Listener): (r': Registry)
    ensures Listeners(r', StateChanged) == Listeners(r, StateChanged) + [callback]
  {
    On(r, StateChanged, callback)
  }

  /** The unsubscribe function `onStateChange` returns, applied to `r`. */
  function Unsubscribe(r: Registry, callback: Listener): Registry {
    Off(r, StateChanged, callback)
  }

  /** Unsubscribing right after subscribing removes one registration of that
      callback: the subscribers are the same multiset as before. */
  lemma UnsubscribeUndoesSubscribe(r: Registry, callback: Listener)
    ensures multiset(Listeners(Unsubscribe(Subscribe(r, callback), callback), StateChanged))
         == multiset(Listeners(r, StateChanged))
  {
    var before := Listeners(r, StateChanged);
    assert Listeners(Subscribe(r, callback), StateChanged) == before + [callback];
    assert multiset(before + [callback]) == multiset(before) + multiset{callback};
  }

  /** When the callback was not registered already, unsubscribing right after
      subscribing restores the subscriber list exactly, order included. */
  lemma UnsubscribeRestoresOrder(r: Registry, callback: Listener)
    requires callback !in Listeners(r, StateChanged)
    ensures Listeners(Unsubscribe(Subscribe(r, callback), callback), StateChanged) == Listeners(r, StateChanged)
  {
    var before := Listeners(r, StateChanged);
    var list := before + [callback];
    var mid := Subscribe(r, callback);
    assert Listeners(mid, StateChanged) == list;
    var after := Listeners(Off(mid, StateChanged, callback), StateChanged);
    assert callback in list by { assert list[|before|] == callback; }
    var i :| 0 <= i < |list| && list[i] == callback && callback !in list[..i]
             && after == list[..i] + list[i + 1..];
    assert forall j :: 0 <= j < |before| ==> list[j] == before[j];
    assert i == |before|;
    assert list[..i] == before;
  }

  /** `destroy()`: every listener is dropped. */
  function Destroy(r: Registry): (r': Registry)
    ensures forall e :: Listeners(r', e) == []
  {
    map[]
  }

  // ----- address and chain-id helpers -----

  predicate IsHexDigit(c: char) {
    '0' <= c <= '9' || 'a' <= c <= 'f' || 'A' <= c <= 'F'
  }

  /** The value of a hexadecimal digit. */
  function DigitValue(c: char): (v: nat)
    requires IsHexDigit(c)
    ensures v < 16
  {
    if '0' <= c <= '9' then c as int - '0' as int
    else if 'a' <= c <= 'f' then c as int - 'a' as int + 10
    else c as int - 'A' as int + 10
  }

  /** The lower-case digit for a value below 16. */
  function HexDigit(v: nat): (c: char)
    requires v < 16
    ensures IsHexDigit(c) && DigitValue(c) == v
  {
    if v < 10 then (v + '0' as int) as char else (v - 10 + 'a' as int) as char
  }

  /** Scans a run of hexadecimal digits. */
  function HexRun(s: string): (ok: bool)
    ensures ok <==> forall i :: 0 <= i < |s| ==> IsHexDigit(s[i])
  {
    if |s| == 0 then true else IsHexDigit(s[0]) && HexRun(s[1..])
  }

  /** `/^0x[a-fA-F0-9]{40}$/.test(address)`. */
  function IsValidAddress(address: string): (ok: bool)
    ensures ok <==> exists digits :: |digits| == 40 && HexRun(digits) && address == "0x" + digits
  {
    var ok := |address| == 42 && address[0] == '0' && address[1] == 'x' && HexRun(address[2..]);
    assert |address| >= 2 ==> address == address[..2] + address[2..];
    ok
  }

  /** `/^0x[a-fA-F0-9]+$/.test(chainId)`. */
  function IsValidChainId(chainId: string): (ok: bool)
    ensures ok <==> exists digits :: |digits| >= 1 && HexRun(digits) && chainId == "0x" + digits
  {
    var ok := |chainId| >= 3 && chainId[0] == '0' && chainId[1] == 'x' && HexRun(chainId[2..]);
    assert |chainId| >= 2 ==> chainId == chainId[..2] + chainId[2..];
    ok
  }

  /** `formatAddress`: a valid address shortened to its first six and last four
      characters around an ellipsis; anything else unchanged. */
  function FormatAddress(address: string): (r: string)
    ensures !IsValidAddress(address) ==> r == address
    ensures IsValidAddress(address) ==>
              |r| == 13 && r == address[..6] + "..." + address[|address| - 4..]
  {
    if !IsValidAddress(address) then address
    else address[..6] + "..." + address[|address| - 4..]
  }

  /** Formatting an already formatted address changes nothing: a shortened
      address is never valid again. */
  lemma FormatAddressIdempotent(address: string)
    ensures FormatAddress(FormatAddress(address)) == FormatAddress(address)
  {
  }

  /** The value of a string of hexadecimal digits, most significant first. */
  function HexValue(s: string): nat
    requires HexRun(s)
  {
    if |s| == 0 then 0 else HexValue(s[..|s| - 1]) * 16 + DigitValue(s[|s| - 1])
  }

  /** `parseChainId`: `parseInt(chainId, 16)` for a valid id, 0 otherwise. The
      value of a valid id is the number whose canonical hexadecimal rendering
      is the id's digits without leading zeros, in lower case. */
  function ParseChainId(chainId: string): (n: nat)
    ensures !IsValidChainId(chainId) ==> n == 0
    ensures IsValidChainId(chainId) ==> ToHex(n) == Canonical(chainId[2..])
  {
    if IsValidChainId(chainId) then
      CanonicalHex(chainId[2..]);
      HexValue(chainId[2..])
    else 0
  }

  /** The lower-case form of a character; other characters are kept. */
  function Lower(c: char): char {
    if 'A' <= c <= 'F' then (c as int - 'A' as int + 'a' as int) as char else c
  }

  function LowerAll(s: string): (r: string)
    ensures |r| == |s| && forall i :: 0 <= i < |s| ==> r[i] == Lower(s[i])
  {
    seq(|s|, i requires 0 <= i < |s| => Lower(s[i]))
  }

  /** Leading zeros dropped, keeping at least one digit. */
  function StripZeros(s: string): (r: string)
    ensures |s| >= 1 ==> |r| >= 1
    ensures |r| <= |s| && r == s[|s| - |r|..]
    ensures |r| > 1 ==> r[0] != '0'
  {
    if |s| > 1 && s[0] == '0' then StripZeros(s[1..]) else s
  }

  /** The digits `ToHex` writes for the value of `s`. */
  function Canonical(s: string): string {
    LowerAll(StripZeros(s))
  }

  /** A string `ToHex` can produce: lower-case digits, no leading zero. */
  predicate IsCanonical(t: string) {
    && |t| >= 1
    && (forall i :: 0 <= i < |t| ==> '0' <= t[i] <= '9' || 'a' <= t[i] <= 'f')
    && (|t| > 1 ==> t[0] != '0')
  }

  lemma {:induction false} PositiveValue(t: string)
    requires HexRun(t) && |t| >= 1 && t[0] != '0'
    ensures HexValue(t) >= 1
    decreases |t|
  {
    if |t| > 1 {
      PositiveValue(t[..|t| - 1]);
    }
  }

  /** `ToHex` inverts `HexValue` on canonical strings. */
  lemma {:induction false} ToHexOfCanonical(t: string)
    requires IsCanonical(t)
    ensures HexRun(t) && ToHex(HexValue(t)) == t
    decreases |t|
  {
    var last := t[|t| - 1];
    assert HexDigit(DigitValue(last)) == last;
    if |t| > 1 {
      var init := t[..|t| - 1];
      assert IsCanonical(init);
      ToHexOfCanonical(init);
      PositiveValue(init);
      var n := HexValue(t);
      assert n / 16 == HexValue(init) && n % 16 == DigitValue(last);
      assert t == init + [last];
    }
  }

  /** A leading zero does not change the value. */
  lemma {:induction false} HexValueLeadingZero(s: string)
    requires HexRun(s)
    ensures HexRun("0" + s) && HexValue("0" + s) == HexValue(s)
    decreases |s|
  {
    if |s| > 0 {
      assert ("0" + s)[..|s|] == "0" + s[..|s| - 1];
      HexValueLeadingZero(s[..|s| - 1]);
    }
  }

  lemma {:induction false} HexValueStripZeros(s: string)
    requires HexRun(s)
    ensures HexRun(StripZeros(s)) && HexValue(StripZeros(s)) == HexValue(s)
    decreases |s|
  {
    if |s| > 1 && s[0] == '0' {
      HexValueStripZeros(s[1..]);
      assert s == "0" + s[1..];
      HexValueLeadingZero(s[1..]);
    }
  }

  lemma {:induction false} HexValueLowerAll(s: string)
    requires HexRun(s)
    ensures HexRun(LowerAll(s)) && HexValue(LowerAll(s)) == HexValue(s)
    decreases |s|
  {
    if |s| > 0 {
      var l := LowerAll(s);
      assert l[..|s| - 1] == LowerAll(s[..|s| - 1]);
      HexValueLowerAll(s[..|s| - 1]);
      assert DigitValue(l[|s| - 1]) == DigitValue(s[|s| - 1]);
    }
  }

  lemma LowerIsCanonical(c: string, z: string)
    requires |c| == |z| >= 1 && (|z| > 1 ==> z[0] != '0')
    requires forall i :: 0 <= i < |c| ==> IsHexDigit(z[i]) && c[i] == Lower(z[i])
    ensures IsCanonical(c)
  {
  }

  /** Every run of hexadecimal digits renders back as its canonical form. */
  lemma CanonicalHex(s: string)
    requires |s| >= 1 && HexRun(s)
    ensures ToHex(HexValue(s)) == Canonical(s)
  {
    var z := StripZeros(s);
    HexValueStripZeros(s);
    HexValueLowerAll(z);
    var c := LowerAll(z);
    assert forall i :: 0 <= i < |c| ==> IsHexDigit(z[i]) && c[i] == Lower(z[i]);
    LowerIsCanonical(c, z);
    ToHexOfCanonical(c);
  }

  /** Lower-case hexadecimal rendering, no leading zeros. */
  function ToHex(n: nat): (s: string)
    ensures |s| >= 1 && HexRun(s)
    decreases n
  {
    if n < 16 then [HexDigit(n)] else ToHex(n / 16) + [HexDigit(n % 16)]
  }

  lemma {:induction false} HexValueOfToHex(n: nat)
    ensures HexValue(ToHex(n)) == n
    decreases n
  {
    var s := ToHex(n);
    if n >= 16 {
      HexValueOfToHex(n / 16);
      assert s[..|s| - 1] == ToHex(n / 16);
    }
  }

  /** Every number round-trips through its `0x` chain id. */
  lemma ParseChainIdRoundTrip(n: nat)
    ensures IsValidChainId("0x" + ToHex(n))
    ensures ParseChainId("0x" + ToHex(n)) == n
  {
    var id := "0x" + ToHex(n);
    assert id[2..] == ToHex(n);
    HexValueOfToHex(n);
  }
}
