/** The wallet hook: the connection state (account, provider, signer, chain),
    the chain switch with its verification and error messages, the wallet's
    account, chain and disconnect events, and the hexadecimal chain-id
    encoding the wallet protocol uses. */
module Wallet {
  import opened Common

  /** The lower-case hexadecimal digit for `v`. */
  function HexChar(v: nat): (c: char)
    requires v < 16
    ensures LowerHexDigit(c)
  {
    if v < 10 then ('0' as int + v) as char else ('a' as int + v - 10) as char
  }

  predicate LowerHexDigit(c: char) {
    '0' <= c <= '9' || 'a' <= c <= 'f'
  }

  /** `n.toString(16)`: lower-case hexadecimal digits, no leading zero. */
  function ToHex(n: nat): (h: string)
    ensures |h| > 0
    ensures forall i :: 0 <= i < |h| ==> LowerHexDigit(h[i])
    decreases n
  {
    if n < 16 then [HexChar(n)] else ToHex(n / 16) + [HexChar(n % 16)]
  }

  /** `` `0x${targetChainId.toString(16)}` ``, the chain id the wallet is
      asked to switch to. */
  function ChainIdHex(n: nat): (h: string)
    ensures IsPrefix("0x", h) && |h| > 2
  {
    "0x" + ToHex(n)
  }

  /** A JavaScript number as `parseInt` returns it. */
  datatype JsNumber = Num(n: int) | NaN

  /** The value of one hexadecimal digit, either case; `None` for any other
      character. */
  function DigitValue(c: char): (v: Option<nat>)
    ensures v.Some? ==> v.value < 16
    ensures LowerHexDigit(c) ==> v.Some? && HexChar(v.value) == c
  {
    if '0' <= c <= '9' then Some(c as int - '0' as int)
    else if 'a' <= c <= 'f' then Some(c as int - 'a' as int + 10)
    else if 'A' <= c <= 'F' then Some(c as int - 'A' as int + 10)
    else None
  }

  predicate AllHexDigits(s: string) {
    forall i :: 0 <= i < |s| ==> DigitValue(s[i]).Some?
  }

  /** The length of the longest prefix of `s` made of hexadecimal digits. */
  function HexPrefixLength(s: string): (n: nat)
    ensures n <= |s|
    ensures AllHexDigits(s[..n])
    ensures n < |s| ==> DigitValue(s[n]).None?
    decreases |s|
  {
    if s == [] || DigitValue(s[0]).None? then 0
    else
      var m := HexPrefixLength(s[1..]);
      assert s[..m + 1] == [s[0]] + s[1..][..m];
      m + 1
  }

  /** The number the digits `d` denote, most significant first. */
  function HexValue(d: string): nat
    requires AllHexDigits(d)
    decreases |d|
  {
    if d == [] then 0
    else HexValue(d[..|d| - 1]) * 16 + DigitValue(d[|d| - 1]).value
  }

  /** `parseInt(s, 16)`: an optional sign, an optional `0x`/`0X` prefix, then
      the longest run of hexadecimal digits; `NaN` when that run is empty. */
  function ParseInt16(s: string): (r: JsNumber)
    ensures r.NaN? <==> (var b := HexBody(s); HexPrefixLength(b) == 0)
  {
    var b := HexBody(s);
    var n := HexPrefixLength(b);
    if n == 0 then NaN
    else if Negative(s) then Num(-(HexValue(b[..n]) as int))
    else Num(HexValue(b[..n]))
  }

  predicate Negative(s: string) {
    |s| > 0 && s[0] == '-'
  }

  /** `s` without its sign and its `0x` prefix. */
  function HexBody(s: string): string {
    var rest := if |s| > 0 && (s[0] == '-' || s[0] == '+') then s[1..] else s;
    if |rest| >= 2 && rest[0] == '0' && (rest[1] == 'x' || rest[1] == 'X') then rest[2..] else rest
  }

  lemma {:induction false} HexValueOfToHex(n: nat)
    ensures AllHexDigits(ToHex(n))
    ensures HexValue(ToHex(n)) == n
    decreases n
  {
    var h := ToHex(n);
    if n >= 16 {
      HexValueOfToHex(n / 16);
      assert h[..|h| - 1] == ToHex(n / 16);
      assert h[|h| - 1] == HexChar(n % 16);
    } else {
      assert h[0] == HexChar(n);
      assert h[..0] == [];
    }
  }

  /** Encoding a chain id and parsing it back with radix 16 gives the same
      id, so the chain a switch asks for and the id a `chainChanged` event
      reports agree. */
  lemma ParseChainIdHex(n: nat)
    ensures ParseInt16(ChainIdHex(n)) == Num(n)
  {
    var h := ToHex(n);
    HexValueOfToHex(n);
    assert HexBody(ChainIdHex(n)) == h;
    var k := HexPrefixLength(h);
    assert k == |h|;
    assert h[..k] == h;
  }

  /** The form `ChainIdHex` produces: `0x`, then lower-case digits without a
      leading zero. */
  predicate Canonical(s: string) {
    |s| > 2 && s[..2] == "0x" &&
    (forall i :: 2 <= i < |s| ==> LowerHexDigit(s[i])) &&
    (s[2] == '0' ==> |s| == 3)
  }

  lemma {:induction false} HexValueAtLeastLeadingDigit(d: string)
    requires |d| > 0 && AllHexDigits(d)
    ensures HexValue(d) >= DigitValue(d[0]).value
    decreases |d|
  {
    if |d| > 1 {
      var init := d[..|d| - 1];
      HexValueAtLeastLeadingDigit(init);
      assert init[0] == d[0];
    }
  }

  /** Appending a digit `v` to `h` and dividing by 16 gives `h` back. */
  lemma AppendDigit(h: nat, v: nat)
    requires v < 16
    ensures (h * 16 + v) / 16 == h && (h * 16 + v) % 16 == v
  {
  }

  lemma {:induction false} ToHexOfHexValue(d: string)
    requires |d| > 0 && (forall i :: 0 <= i < |d| ==> LowerHexDigit(d[i]))
    requires d[0] == '0' ==> |d| == 1
    ensures AllHexDigits(d)
    ensures ToHex(HexValue(d)) == d
    decreases |d|
  {
    var c := d[|d| - 1];
    var v := DigitValue(c).value;
    assert HexChar(v) == c;
    if |d| == 1 {
      assert d[..0] == [];
      assert HexValue(d) == v;
    } else {
      var init := d[..|d| - 1];
      ToHexOfHexValue(init);
      var h := HexValue(init);
      HexValueAtLeastLeadingDigit(init);
      assert init[0] == d[0];
      assert h >= 1;
      assert HexValue(d) == h * 16 + v;
      AppendDigit(h, v);
      assert ToHex(h * 16 + v) == ToHex(h) + [HexChar(v)];
      assert d == init + [c];
    }
  }

  /** Every canonical chain-id string is the encoding of the number it
      parses to. */
  lemma ChainIdHexOfParse(s: string)
    requires Canonical(s)
    ensures ParseInt16(s).Num? && ParseInt16(s).n >= 0
    ensures ChainIdHex(ParseInt16(s).n) == s
  {
    var d := s[2..];
    assert s[0] == '0' && s[1] == 'x' by {
      assert s[..2][0] == s[0] && s[..2][1] == s[1];
    }
    assert !Negative(s);
    assert HexBody(s) == d;
    assert forall i :: 0 <= i < |d| ==> LowerHexDigit(d[i]) by {
      forall i | 0 <= i < |d| ensures LowerHexDigit(d[i]) {
        assert d[i] == s[i + 2];
      }
    }
    ToHexOfHexValue(d);
    var k := HexPrefixLength(d);
    assert k == |d|;
    assert d[..k] == d;
    assert ParseInt16(s) == Num(HexValue(d));
    assert s == "0x" + d;
  }

  /** `NETWORK_NAMES[chainId]`. */
  function NetworkName(chainId: int): (r: Option<string>)
    ensures r.Some? <==> chainId in {ZETA, ARBITRUM, BASE, AVAX, SOLANA}
    ensures r.Some? ==> r.value != ""
  {
    if chainId == ZETA then Some("ZetaChain")
    else if chainId == ARBITRUM then Some("Arbitrum")
    else if chainId == BASE then Some("Base")
    else if chainId == AVAX then Some("Avalanche")
    else if chainId == SOLANA then Some("Solana")
    else None
  }

  /** `NETWORK_NAMES[chainId] || chainId` in a template literal. */
  function NameOrId(chainId: int): (s: string)
    ensures NetworkName(chainId).Some? ==> s == NetworkName(chainId).value
    ensures NetworkName(chainId).None? ==> s == DecimalString(chainId)
  {
    match NetworkName(chainId)
    case Some(name) => name
    case None => DecimalString(chainId)
  }

  const NO_WALLET: string := "No Ethereum wallet found. Please install MetaMask or another wallet."
  const WALLET_DISCONNECTED: string := "Wallet disconnected"
  const SWITCH_ERROR_PREFIX: string := "Network switch error: "

  /** The error the switch raises when the wallet reports another chain. */
  function MismatchError(target: int, reported: int): (e: JsError)
    ensures e.code == None && e.message.Some?
    ensures IsPrefix("Network switch failed. Expected " + NameOrId(target), e.message.value)
  {
    var prefix := "Network switch failed. Expected " + NameOrId(target);
    var m := prefix + ", got " + DecimalString(reported);
    assert m[..|prefix|] == prefix;
    JsError(Some(m), None, None)
  }

  /** The message `switchToChain` shows for a caught error: code 4902 (the
      chain is not known to the wallet) asks to add the network; any other
      error is shown after a fixed prefix. */
  function SwitchErrorMessage(target: int, e: JsError): (m: string)
    ensures e.code == Some(4902) ==>
      IsPrefix("The " + NameOrId(target), m) && !IsPrefix(SWITCH_ERROR_PREFIX, m)
    ensures e.code != Some(4902) ==>
      IsPrefix(SWITCH_ERROR_PREFIX, m) && m[|SWITCH_ERROR_PREFIX|..] == Show(e.message)
  {
    if e.code == Some(4902) then
      var prefix := "The " + NameOrId(target);
      var m := prefix + " network needs to be added to your wallet";
      assert m[..|prefix|] == prefix;
      assert m[..|SWITCH_ERROR_PREFIX|] != SWITCH_ERROR_PREFIX by {
        assert m[1] == 'h' != SWITCH_ERROR_PREFIX[1];
      }
      m
    else
      var m := SWITCH_ERROR_PREFIX + Show(e.message);
      assert m[..|SWITCH_ERROR_PREFIX|] == SWITCH_ERROR_PREFIX;
      m
  }

  /** What `getAddress` and `getNetwork` report for a provider. */
  datatype Details = Details(address: string, chainId: int)

  /** The exception that ends `switchToChain`'s `try` block, if any: the
      switch request, the network query, or a reported chain other than the
      target. */
  function SwitchFailure(target: nat, request: Outcome, providerInit: bool,
                         network: Result<int>): Option<JsError>
  {
    if request.Thrown? then Some(request.err)
    else if !providerInit then None
    else if network.Throw? then Some(network.err)
    else if network.value != target then Some(MismatchError(target, network.value))
    else None
  }

  /** A switch that reports the wrong chain always fails, with a message that
      names the target chain and never the add-the-network hint. */
  lemma MismatchFailsNamingTarget(target: nat, network: Result<int>)
    requires network.Ok? && network.value != target
    ensures var f := SwitchFailure(target, Done, true, network);
      f.Some? && f.value.code == None &&
      IsPrefix(SWITCH_ERROR_PREFIX, SwitchErrorMessage(target, f.value)) &&
      IsPrefix("Network switch failed. Expected " + NameOrId(target), f.value.message.value)
  {
  }

  /** The connection part of the hook's state. `provider` and `signer` say
      whether those objects are set. */
  datatype Conn = Conn(account: Option<string>, provider: bool, signer: bool, chainId: Option<JsNumber>)

  const DISCONNECTED: Conn := Conn(None, false, false, None)

  class WalletHook {
    var account: Option<string>
    var provider: bool
    var signer: bool
    var chainId: Option<JsNumber>
    var connecting: bool
    var error: Option<string>
    var networkSwitching: bool
    /** The chain ids, as sent, of every `wallet_switchEthereumChain`
        request. */
    var switchRequests: seq<string>

    function Connection(): Conn
      reads this
    {
      Conn(account, provider, signer, chainId)
    }

    constructor ()
      ensures Connection() == DISCONNECTED && !connecting && error == None && !networkSwitching
      ensures switchRequests == []
    {
      account, provider, signer, chainId := None, false, false, None;
      connecting, error, networkSwitching := false, None, false;
      switchRequests := [];
    }

    /** `isConnected`: `!!account`. */
    predicate IsConnected()
      reads this
    {
      Truthy(account)
    }

    /** `resetConnection`. */
    method ResetConnection()
      modifies this`account, this`provider, this`signer, this`chainId
      ensures Connection() == DISCONNECTED && !IsConnected()
    {
      provider := false;
      signer := false;
      account := None;
      chainId := None;
    }

    /** `updateConnectionDetails` for an initialised provider: on success the
        four connection fields come from the provider and the error is
        cleared; when a query throws only the error changes. */
    method UpdateConnectionDetails(details: Result<Details>)
      modifies this`account, this`provider, this`signer, this`chainId, this`error
      ensures details.Ok? ==>
        Connection() == Conn(Some(details.value.address), true, true, Some(Num(details.value.chainId))) &&
        error == None
      ensures details.Throw? ==>
        Connection() == old(Connection()) &&
        error == Some("Connection error: " + Show(details.err.message))
    {
      match details
      case Ok(d) =>
        provider := true;
        signer := true;
        account := Some(d.address);
        chainId := Some(Num(d.chainId));
        error := None;
      case Throw(err) =>
        error := Some("Connection error: " + Show(err.message));
    }

    /** `connectWallet`: `hasEthereum` is whether a wallet is injected,
        `request` the outcome of `eth_requestAccounts`, `providerInit`
        whether the provider could be created. */
    method ConnectWallet(hasEthereum: bool, request: Outcome, providerInit: bool, details: Result<Details>)
      modifies this
      ensures switchRequests == old(switchRequests) && networkSwitching == old(networkSwitching)
      ensures !hasEthereum ==>
        error == Some(NO_WALLET) && Connection() == old(Connection()) && connecting == old(connecting)
      ensures hasEthereum ==> !connecting
      ensures hasEthereum && request.Thrown? ==>
        error == Some("Failed to connect: " + Show(request.err.message)) && Connection() == DISCONNECTED
      ensures hasEthereum && request.Done? && !providerInit ==>
        error == Some("Failed to connect: Failed to initialize provider") && Connection() == DISCONNECTED
      ensures hasEthereum && request.Done? && providerInit && details.Ok? ==>
        error == None && IsConnected() == (details.value.address != "") &&
        Connection() == Conn(Some(details.value.address), true, true, Some(Num(details.value.chainId)))
      ensures hasEthereum && request.Done? && providerInit && details.Throw? ==>
        error == Some("Connection error: " + Show(details.err.message)) && Connection() == old(Connection())
    {
      if !hasEthereum {
        error := Some(NO_WALLET);
        return;
      }
      connecting := true;
      error := None;
      if request.Thrown? {
        error := Some("Failed to connect: " + Show(request.err.message));
        ResetConnection();
      } else if !providerInit {
        error := Some("Failed to connect: Failed to initialize provider");
        ResetConnection();
      } else {
        UpdateConnectionDetails(details);
      }
      connecting := false;
    }

    /** `switchToChain(target)`: asks the wallet to switch, checks the chain
        the new provider reports, and refreshes the connection. Without a
        wallet or a provider it does nothing. */
    method SwitchToChain(hasEthereum: bool, target: nat, request: Outcome, providerInit: bool,
                         network: Result<int>, details: Result<Details>)
      modifies this
      ensures !hasEthereum || !old(provider) ==>
        Connection() == old(Connection()) && error == old(error) &&
        networkSwitching == old(networkSwitching) && switchRequests == old(switchRequests) &&
        connecting == old(connecting)
      ensures hasEthereum && old(provider) ==>
        !networkSwitching && connecting == old(connecting) &&
        switchRequests == old(switchRequests) + [ChainIdHex(target)]
      ensures hasEthereum && old(provider) && SwitchFailure(target, request, providerInit, network).Some? ==>
        Connection() == old(Connection()) &&
        error == Some(SwitchErrorMessage(target, SwitchFailure(target, request, providerInit, network).value))
      ensures hasEthereum && old(provider) && SwitchFailure(target, request, providerInit, network).None? && !providerInit ==>
        Connection() == old(Connection()) && error == None
      ensures hasEthereum && old(provider) && SwitchFailure(target, request, providerInit, network).None? && providerInit ==>
        network == Ok(target as int) &&
        (details.Ok? ==> Connection() == Conn(Some(details.value.address), true, true, Some(Num(details.value.chainId))) && error == None) &&
        (details.Throw? ==> Connection() == old(Connection()) && error == Some("Connection error: " + Show(details.err.message)))
    {
      if !hasEthereum || !provider {
        return;
      }
      networkSwitching := true;
      error := None;
      var chainIdHex := ChainIdHex(target);
      switchRequests := switchRequests + [chainIdHex];
      var failure: Option<JsError> := None;
      if request.Thrown? {
        failure := Some(request.err);
      } else if providerInit {
        if network.Throw? {
          failure := Some(network.err);
        } else if network.value != target {
          failure := Some(MismatchError(target, network.value));
        } else {
          UpdateConnectionDetails(details);
        }
      }
      if failure.Some? {
        error := Some(SwitchErrorMessage(target, failure.value));
      }
      networkSwitching := false;
    }

    /** The `accountsChanged` event: a non-empty list selects its first
        account and refreshes the connection; an empty one disconnects. */
    method HandleAccountsChanged(accounts: seq<string>, providerInit: bool, details: Result<Details>)
      modifies this`account, this`provider, this`signer, this`chainId, this`error
      ensures |accounts| == 0 ==> Connection() == DISCONNECTED && error == old(error)
      ensures |accounts| > 0 && (!providerInit || details.Throw?) ==>
        Connection() == old(Connection()).(account := Some(accounts[0]))
      ensures |accounts| > 0 && !providerInit ==> error == old(error)
      ensures |accounts| > 0 && providerInit ==>
        (details.Ok? ==> Connection() == Conn(Some(details.value.address), true, true, Some(Num(details.value.chainId))) && error == None) &&
        (details.Throw? ==> error == Some("Connection error: " + Show(details.err.message)))
    {
      if |accounts| > 0 {
        account := Some(accounts[0]);
        if providerInit {
          UpdateConnectionDetails(details);
        }
      } else {
        ResetConnection();
      }
    }

    /** The `chainChanged` event: the chain id is parsed from its hex form,
        then the connection is refreshed. */
    method HandleChainChanged(chainIdHex: string, providerInit: bool, details: Result<Details>)
      modifies this`account, this`provider, this`signer, this`chainId, this`error
      ensures !providerInit || details.Throw? ==>
        Connection() == old(Connection()).(chainId := Some(ParseInt16(chainIdHex)))
      ensures !providerInit ==> error == old(error)
      ensures providerInit && details.Ok? ==>
        Connection() == Conn(Some(details.value.address), true, true, Some(Num(details.value.chainId))) && error == None
      ensures providerInit && details.Throw? ==>
        error == Some("Connection error: " + Show(details.err.message))
    {
      var numericChainId := ParseInt16(chainIdHex);
      chainId := Some(numericChainId);
      if providerInit {
        UpdateConnectionDetails(details);
      }
    }

    /** The `disconnect` event. */
    method HandleDisconnect()
      modifies this`account, this`provider, this`signer, this`chainId, this`error
      ensures Connection() == DISCONNECTED && !IsConnected()
      ensures error == Some(WALLET_DISCONNECTED)
    {
      ResetConnection();
      error := Some(WALLET_DISCONNECTED);
    }
  }
}
