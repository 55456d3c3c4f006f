/** The wallet-connection hook: one `WalletState` record, driven by `connect`, `disconnect`,
    `checkConnection` and the two provider events `accountsChanged` and `chainChanged`.

    The injected provider (`window.ethereum`) is an oracle: `Injected` records how each request
    would settle at the moment an operation runs, and `None` stands for "no provider injected".
    Every operation runs to completion before the next one starts. */
module Wallet {
  import opened Js
  import Hex

  // ---------------------------------------------------------------------------------------
  // The required network

  const MantleChainId: nat := 5000
  const MantleRpcUrl := "https://rpc.mantle.xyz"

  /** The provider error code for a chain the wallet does not know (EIP-3326, EIP-3085). */
  const UnrecognizedChain := 4902

  datatype NativeCurrency = NativeCurrency(name: string, symbol: string, decimals: nat)

  /** The parameter record of `wallet_addEthereumChain` (EIP-3085). */
  datatype ChainParams = ChainParams(
    chainId: string,
    chainName: string,
    nativeCurrency: NativeCurrency,
    rpcUrls: seq<string>,
    blockExplorerUrls: seq<string>)

  const MantleNetwork := ChainParams(
    "0x" + Hex.ToHex(MantleChainId),
    "Mantle Network",
    NativeCurrency("Mantle", "MNT", 18),
    [MantleRpcUrl],
    ["https://explorer.mantle.xyz"])

  /** The chain id sent to the provider is "0x1388", the hexadecimal form of 5000. */
  lemma MantleChainIdHex()
    ensures MantleNetwork.chainId == "0x1388"
    ensures Hex.ParseHex(MantleNetwork.chainId[2..]) == MantleChainId
  {
    Hex.ToHex5000();
    Hex.ParseToHex(MantleChainId);
    assert MantleNetwork.chainId[2..] == Hex.ToHex(MantleChainId);
  }

  const NotInstalled := "MetaMask is not installed. Please install MetaMask to continue."
  const NotInstalledShort := "MetaMask is not installed"
  const NoAccounts := "No accounts found"

  // ---------------------------------------------------------------------------------------
  // The state record and the provider

  datatype WalletStatus = Disconnected | Connecting | Connected

  type Address = string

  /** An `ethers.JsonRpcSigner`, known by how its `getAddress()` settles. */
  datatype Signer = Signer(getAddress: Reply<Address>)

  /** An `ethers.BrowserProvider`: an opaque handle, a new one per construction. */
  class BrowserProvider {
    constructor ()
    {
    }
  }

  datatype WalletState = WalletState(
    status: WalletStatus,
    address: Option<Address>,
    isConnecting: bool,
    provider: BrowserProvider?,
    signer: Option<Signer>)

  const Initial := WalletState(Disconnected, None, false, null, None)

  /** How the injected provider, and `ethers` on top of it, answer each call right now. */
  datatype Injected = Injected(
    requestAccounts: Reply<Option<seq<Address>>>,  // eth_requestAccounts (the list may be null)
    switchChain: Reply<()>,                        // wallet_switchEthereumChain
    addChain: Reply<()>,                           // wallet_addEthereumChain
    listAccounts: Reply<seq<Address>>,             // BrowserProvider.listAccounts()
    getSigner: Reply<Signer>,                      // BrowserProvider.getSigner()
    getNetwork: Reply<int>)                        // Number((await getNetwork()).chainId)

  /** `isMetaMaskInstalled`: whether a provider is injected. */
  function IsMetaMaskInstalled(eth: Option<Injected>): (r: bool)
    ensures r <==> eth.Some?
  {
    eth.Some?
  }

  /** The requests the hook sends through `window.ethereum.request`. */
  datatype RpcCall =
    | EthRequestAccounts
    | SwitchEthereumChain(chainId: string)
    | AddEthereumChain(params: ChainParams)

  /** What an observer sees: a state written with `setState`, or a request sent. */
  datatype Event = Published(state: WalletState) | Requested(call: RpcCall)

  /** The record invariant: a connected state has an address, a provider and a signer, the
      address is the one the signer reports, and `isConnecting` agrees with the status. */
  ghost predicate Consistent(s: WalletState)
  {
    && (s.status == Connected ==>
          && s.address.Some? && s.provider != null && s.signer.Some?
          && s.signer.value.getAddress == Ok(s.address.value))
    && (s.isConnecting <==> s.status == Connecting)
  }

  /** Between operations no connect attempt is in progress. */
  ghost predicate Resting(s: WalletState)
  {
    Consistent(s) && s.status != Connecting
  }

  ghost predicate AllPublishedConsistent(t: seq<Event>)
  {
    forall i :: 0 <= i < |t| && t[i].Published? ==> Consistent(t[i].state)
  }

  // ---------------------------------------------------------------------------------------
  // Network enforcement

  predicate IsUnrecognized(e: JsError)
  {
    e.code == Some(UnrecognizedChain)
  }

  /** How `addMantleNetwork` settles once the provider is known to be present. */
  function AddReply(inj: Injected): Reply<()>
  {
    match inj.addChain
    case Ok(_) => Ok(())
    case Err(e) => if IsUnrecognized(e) then Ok(()) else Err(e)
  }

  /** How `switchToMantleNetwork` settles once the provider is known to be present. */
  function SwitchReply(inj: Injected): Reply<()>
  {
    match inj.switchChain
    case Ok(_) => Ok(())
    case Err(e) => if IsUnrecognized(e) then AddReply(inj) else Err(e)
  }

  /** The requests `switchToMantleNetwork` sends. */
  function SwitchEvents(inj: Injected): seq<Event>
  {
    [Requested(SwitchEthereumChain(MantleNetwork.chainId))]
    + if inj.switchChain.Err? && IsUnrecognized(inj.switchChain.error)
      then [Requested(AddEthereumChain(MantleNetwork))] else []
  }

  /** The add-chain step swallows code 4902 and passes every other rejection through. */
  lemma AddChainOutcomes(inj: Injected)
    ensures inj.addChain.Ok? ==> AddReply(inj) == Ok(())
    ensures inj.addChain.Err? ==>
      (AddReply(inj).Ok? <==> inj.addChain.error.code == Some(4902))
    ensures AddReply(inj).Err? ==> AddReply(inj) == Err(inj.addChain.error)
  {
  }

  /** The switch step: success needs no more requests; a 4902 rejection leads to exactly one
      add-chain request carrying the Mantle parameters, and the add step's outcome; any other
      rejection propagates unchanged with nothing added. */
  lemma SwitchOutcomes(inj: Injected)
    ensures SwitchEvents(inj)[0] == Requested(SwitchEthereumChain("0x1388"))
    ensures inj.switchChain.Ok? ==>
      SwitchReply(inj) == Ok(()) && |SwitchEvents(inj)| == 1
    ensures inj.switchChain.Err? && inj.switchChain.error.code == Some(4902) ==>
      && SwitchReply(inj) == AddReply(inj)
      && SwitchEvents(inj) == [Requested(SwitchEthereumChain("0x1388")),
                               Requested(AddEthereumChain(MantleNetwork))]
    ensures inj.switchChain.Err? && inj.switchChain.error.code != Some(4902) ==>
      SwitchReply(inj) == inj.switchChain && |SwitchEvents(inj)| == 1
  {
    MantleChainIdHex();
  }

  // ---------------------------------------------------------------------------------------
  // connect

  /** `!accounts || accounts.length === 0`, negated. */
  predicate HasAccounts(accounts: Option<seq<Address>>)
  {
    accounts.Some? && |accounts.value| > 0
  }

  /** The handshake of `connect` after the presence check: the signer and its address, or
      the first rejection met. */
  function Handshake(inj: Injected): Reply<(Signer, Address)>
  {
    match inj.requestAccounts
    case Err(e) => Err(e)
    case Ok(accounts) =>
      if !HasAccounts(accounts) then Err(PlainError(NoAccounts))
      else match SwitchReply(inj)
        case Err(e) => Err(e)
        case Ok(_) =>
          match inj.getSigner
          case Err(e) => Err(e)
          case Ok(signer) =>
            match signer.getAddress
            case Err(e) => Err(e)
            case Ok(address) => Ok((signer, address))
  }

  /** How the promise returned by `connect` settles. */
  function ConnectReply(eth: Option<Injected>): Reply<()>
  {
    match eth
    case None => Err(PlainError(NotInstalled))
    case Some(inj) =>
      match Handshake(inj)
      case Ok(_) => Ok(())
      case Err(e) => Err(e)
  }

  /** The state `connect` publishes before its first request. */
  function ConnectingFrom(s: WalletState): WalletState
  {
    s.(isConnecting := true, status := Connecting)
  }

  /** The state after `connect`; `p` is the `BrowserProvider` it constructed. */
  function AfterConnect(s: WalletState, eth: Option<Injected>, p: BrowserProvider?): WalletState
  {
    match eth
    case None => s
    case Some(inj) =>
      match Handshake(inj)
      case Ok((signer, address)) => WalletState(Connected, Some(address), false, p, Some(signer))
      case Err(_) => s.(status := Disconnected, isConnecting := false)
  }

  /** Everything `connect` publishes and requests, in order. */
  function ConnectTrace(s: WalletState, eth: Option<Injected>, p: BrowserProvider?): seq<Event>
  {
    match eth
    case None => []
    case Some(inj) =>
      [Published(ConnectingFrom(s)), Requested(EthRequestAccounts)]
      + (if inj.requestAccounts.Ok? && HasAccounts(inj.requestAccounts.value)
         then SwitchEvents(inj) else [])
      + [Published(AfterConnect(s, eth, p))]
  }

  /** Without a provider, `connect` rejects with the install message and does nothing else. */
  lemma ConnectWithoutProvider(s: WalletState, p: BrowserProvider?)
    ensures ConnectReply(None) == Err(JsError(None, NotInstalled))
    ensures AfterConnect(s, None, p) == s && ConnectTrace(s, None, p) == []
  {
  }

  /** With a provider, the first thing `connect` does is publish a connecting state, before any
      request; an empty or missing account list then fails with "No accounts found" before any
      network switch is requested. */
  lemma ConnectStartsConnecting(s: WalletState, inj: Injected, p: BrowserProvider?)
    ensures ConnectTrace(s, Some(inj), p)[0] == Published(s.(status := Connecting, isConnecting := true))
    ensures ConnectTrace(s, Some(inj), p)[1] == Requested(EthRequestAccounts)
    ensures inj.requestAccounts.Ok? && !HasAccounts(inj.requestAccounts.value) ==>
      && ConnectReply(Some(inj)) == Err(JsError(None, NoAccounts))
      && |ConnectTrace(s, Some(inj), p)| == 3
      && ConnectTrace(s, Some(inj), p)[2].Published?
  {
  }

  /** Every failure of `connect` after the presence check ends the same way: disconnected, not
      connecting, with address, provider and signer carried over, and the error re-thrown. */
  lemma ConnectFailure(s: WalletState, inj: Injected, p: BrowserProvider?)
    requires ConnectReply(Some(inj)).Err?
    ensures AfterConnect(s, Some(inj), p) == s.(status := Disconnected, isConnecting := false)
    ensures ConnectReply(Some(inj)) == Err(Handshake(inj).error)
    ensures var e := Handshake(inj).error;
      || inj.requestAccounts == Err(e) || e == PlainError(NoAccounts)
      || inj.switchChain == Err(e) || inj.addChain == Err(e) || inj.getSigner == Err(e)
      || (inj.getSigner.Ok? && inj.getSigner.value.getAddress == Err(e))
  {
  }

  /** A successful `connect` yields a connected state holding the signer's own address. */
  lemma ConnectSuccess(s: WalletState, inj: Injected, p: BrowserProvider)
    requires ConnectReply(Some(inj)).Ok?
    ensures var t := AfterConnect(s, Some(inj), p);
      && t.status == Connected && !t.isConnecting && t.provider == p
      && t == WalletState(Connected, Some(inj.getSigner.value.getAddress.value), false, p,
                          Some(inj.getSigner.value))
      && Consistent(t)
  {
  }

  /** `connect` resolves exactly when the provider hands out a non-empty account list, the
      network step ends well (switch accepted, or 4902 followed by an add that is accepted or
      itself answers 4902), and both the signer and its address are obtained. */
  lemma ConnectSucceedsIff(inj: Injected)
    ensures ConnectReply(Some(inj)).Ok? <==>
      && inj.requestAccounts.Ok? && HasAccounts(inj.requestAccounts.value)
      && (|| inj.switchChain.Ok?
          || (&& inj.switchChain.error.code == Some(4902)
              && (inj.addChain.Ok? || inj.addChain.error.code == Some(4902))))
      && inj.getSigner.Ok? && inj.getSigner.value.getAddress.Ok?
  {
  }

  // ---------------------------------------------------------------------------------------
  // checkConnection

  /** What `checkConnection` decides from the provider's answers. */
  datatype Verdict = Keep | MarkConnected(signer: Signer, address: Address) | MarkWrongNetwork

  function CheckVerdict(inj: Injected): Verdict
  {
    match inj.listAccounts
    case Err(_) => Keep
    case Ok(accounts) =>
      if |accounts| == 0 then Keep
      else match inj.getSigner
        case Err(_) => Keep
        case Ok(signer) =>
          match signer.getAddress
          case Err(_) => Keep
          case Ok(address) =>
            match inj.getNetwork
            case Err(_) => Keep
            case Ok(chainId) =>
              if chainId == MantleChainId then MarkConnected(signer, address) else MarkWrongNetwork
  }

  /** The state after `checkConnection`; `p` is the `BrowserProvider` it constructed. */
  function AfterCheck(s: WalletState, v: Verdict, p: BrowserProvider?): WalletState
  {
    match v
    case Keep => s
    case MarkConnected(signer, address) => WalletState(Connected, Some(address), false, p, Some(signer))
    case MarkWrongNetwork => s.(status := Disconnected)
  }

  /** The four outcomes of `checkConnection`. */
  lemma CheckOutcomes(s: WalletState, inj: Injected, p: BrowserProvider?)
    ensures inj.listAccounts == Ok([]) ==> AfterCheck(s, CheckVerdict(inj), p) == s
    ensures || inj.listAccounts.Err?
            || (inj.listAccounts.Ok? && |inj.listAccounts.value| > 0
                && (|| inj.getSigner.Err?
                    || (inj.getSigner.Ok? && inj.getSigner.value.getAddress.Err?)
                    || (inj.getSigner.Ok? && inj.getSigner.value.getAddress.Ok? && inj.getNetwork.Err?)))
            ==> CheckVerdict(inj).Keep?
    ensures CheckVerdict(inj).Keep? ==> AfterCheck(s, CheckVerdict(inj), p) == s
    ensures CheckVerdict(inj).MarkConnected? <==>
      && inj.listAccounts.Ok? && |inj.listAccounts.value| > 0
      && inj.getSigner.Ok? && inj.getSigner.value.getAddress.Ok?
      && inj.getNetwork == Ok(5000)
    ensures CheckVerdict(inj).MarkConnected? ==>
      AfterCheck(s, CheckVerdict(inj), p)
        == WalletState(Connected, Some(inj.getSigner.value.getAddress.value), false, p,
                       Some(inj.getSigner.value))
    ensures CheckVerdict(inj).MarkWrongNetwork? <==>
      && inj.listAccounts.Ok? && |inj.listAccounts.value| > 0
      && inj.getSigner.Ok? && inj.getSigner.value.getAddress.Ok?
      && inj.getNetwork.Ok? && inj.getNetwork.value != 5000
    ensures CheckVerdict(inj).MarkWrongNetwork? ==>
      AfterCheck(s, CheckVerdict(inj), p) == s.(status := Disconnected)
  {
  }

  /** A connected state can only come from chain 5000 in `checkConnection`. */
  lemma CheckConnectsOnlyOnMantle(s: WalletState, inj: Injected, p: BrowserProvider?)
    requires !s.status.Connected?
    requires AfterCheck(s, CheckVerdict(inj), p).status == Connected
    ensures inj.getNetwork == Ok(MantleChainId)
  {
  }

  // ---------------------------------------------------------------------------------------
  // The hook

  class Connection {
    var status: WalletStatus
    var address: Option<Address>
    var isConnecting: bool
    var provider: BrowserProvider?
    var signer: Option<Signer>

    /** Every state published and every request sent, oldest first. */
    ghost var trace: seq<Event>

    function State(): WalletState
      reads this
    {
      WalletState(status, address, isConnecting, provider, signer)
    }

    ghost predicate Valid()
      reads this
    {
      Resting(State()) && AllPublishedConsistent(trace)
    }

    constructor ()
      ensures Valid() && State() == Initial && trace == []
    {
      status, address, isConnecting, provider, signer := Disconnected, None, false, null, None;
      trace := [];
    }

    /** `setState` with a whole record. */
    method SetState(s: WalletState)
      modifies this
      ensures State() == s && trace == old(trace) + [Published(s)]
    {
      status, address, isConnecting, provider, signer := s.status, s.address, s.isConnecting, s.provider, s.signer;
      trace := trace + [Published(s)];
    }

    method Request(call: RpcCall)
      modifies `trace
      ensures trace == old(trace) + [Requested(call)]
    {
      trace := trace + [Requested(call)];
    }

    method AddMantleNetwork(eth: Option<Injected>) returns (r: Reply<()>)
      modifies `trace
      ensures eth.None? ==> r == Err(PlainError(NotInstalled)) && trace == old(trace)
      ensures eth.Some? ==>
        r == AddReply(eth.value) && trace == old(trace) + [Requested(AddEthereumChain(MantleNetwork))]
    {
      if eth.None? {
        return Err(PlainError(NotInstalled));
      }
      Request(AddEthereumChain(MantleNetwork));
      match eth.value.addChain
      case Ok(_) => r := Ok(());
      case Err(e) => r := if IsUnrecognized(e) then Ok(()) else Err(e);
    }

    method SwitchToMantleNetwork(eth: Option<Injected>) returns (r: Reply<()>)
      modifies `trace
      ensures eth.None? ==> r == Err(PlainError(NotInstalledShort)) && trace == old(trace)
      ensures eth.Some? ==> r == SwitchReply(eth.value) && trace == old(trace) + SwitchEvents(eth.value)
    {
      if eth.None? {
        return Err(PlainError(NotInstalledShort));
      }
      Request(SwitchEthereumChain(MantleNetwork.chainId));
      match eth.value.switchChain
      case Ok(_) => r := Ok(());
      case Err(e) =>
        if IsUnrecognized(e) {
          r := AddMantleNetwork(eth);
        } else {
          r := Err(e);
        }
    }

    /** Drops into `disconnected` after a failed step, keeping the other fields. */
    method Fail(e: JsError) returns (r: Reply<()>)
      modifies this
      ensures r == Err(e)
      ensures State() == old(State()).(status := Disconnected, isConnecting := false)
      ensures trace == old(trace) + [Published(State())]
    {
      SetState(State().(status := Disconnected, isConnecting := false));
      r := Err(e);
    }

    method Connect(eth: Option<Injected>) returns (r: Reply<()>)
      requires Valid()
      modifies this
      ensures Valid()
      ensures r == ConnectReply(eth)
      ensures State() == AfterConnect(old(State()), eth, provider)
      ensures trace == old(trace) + ConnectTrace(old(State()), eth, provider)
      ensures provider != old(provider) ==> fresh(provider)
      ensures r.Ok? ==> fresh(provider)
    {
      if !IsMetaMaskInstalled(eth) {
        return Err(PlainError(NotInstalled));
      }
      var inj := eth.value;
      SetState(ConnectingFrom(State()));
      Request(EthRequestAccounts);
      match inj.requestAccounts {
        case Err(e) =>
          r := Fail(e);
        case Ok(accounts) =>
          if !HasAccounts(accounts) {
            r := Fail(PlainError(NoAccounts));
          } else {
            var switched := SwitchToMantleNetwork(eth);
            if switched.Err? {
              r := Fail(switched.error);
            } else {
              var bp := new BrowserProvider();
              match inj.getSigner {
                case Err(e) =>
                  r := Fail(e);
                case Ok(sg) =>
                  match sg.getAddress {
                    case Err(e) =>
                      r := Fail(e);
                    case Ok(a) =>
                      SetState(WalletState(Connected, Some(a), false, bp, Some(sg)));
                      r := Ok(());
                  }
              }
            }
          }
      }
    }

    method Disconnect()
      requires Valid()
      modifies this
      ensures Valid()
      ensures State() == Initial && trace == old(trace) + [Published(Initial)]
    {
      SetState(Initial);
    }

    /** Re-derives the state from the provider; every rejection is swallowed. */
    method CheckConnection(inj: Injected)
      requires Valid()
      modifies this
      ensures Valid()
      ensures State() == AfterCheck(old(State()), CheckVerdict(inj), provider)
      ensures trace == old(trace) + (if CheckVerdict(inj).Keep? then [] else [Published(State())])
      ensures CheckVerdict(inj).MarkConnected? ==> fresh(provider)
      ensures !CheckVerdict(inj).MarkConnected? ==> provider == old(provider)
    {
      var bp := new BrowserProvider();
      match inj.listAccounts {
        case Err(_) =>
        case Ok(accounts) =>
          if |accounts| > 0 {
            match inj.getSigner {
              case Err(_) =>
              case Ok(sg) =>
                match sg.getAddress {
                  case Err(_) =>
                  case Ok(a) =>
                    match inj.getNetwork {
                      case Err(_) =>
                      case Ok(chainId) =>
                        if chainId == MantleChainId {
                          SetState(WalletState(Connected, Some(a), false, bp, Some(sg)));
                        } else {
                          SetState(State().(status := Disconnected));
                        }
                    }
                }
            }
          }
      }
    }

    /** The mount effect: nothing without a provider, otherwise one `checkConnection`. */
    method Mount(eth: Option<Injected>)
      requires Valid()
      modifies this
      ensures Valid()
      ensures eth.None? ==> State() == old(State()) && trace == old(trace)
      ensures eth.Some? ==> State() == AfterCheck(old(State()), CheckVerdict(eth.value), provider)
      ensures eth.Some? ==>
        trace == old(trace) + (if CheckVerdict(eth.value).Keep? then [] else [Published(State())])
      ensures eth.Some? && CheckVerdict(eth.value).MarkConnected? ==> fresh(provider)
      ensures !(eth.Some? && CheckVerdict(eth.value).MarkConnected?) ==> provider == old(provider)
    {
      if IsMetaMaskInstalled(eth) {
        CheckConnection(eth.value);
      }
    }

    /** The `accountsChanged` listener: an empty list disconnects, any other list re-checks. */
    method HandleAccountsChanged(inj: Injected, accounts: seq<Address>)
      requires Valid()
      modifies this
      ensures Valid()
      ensures accounts == [] ==> State() == Initial && trace == old(trace) + [Published(Initial)]
      ensures accounts != [] ==> State() == AfterCheck(old(State()), CheckVerdict(inj), provider)
      ensures accounts != [] ==>
        trace == old(trace) + (if CheckVerdict(inj).Keep? then [] else [Published(State())])
      ensures accounts != [] && CheckVerdict(inj).MarkConnected? ==> fresh(provider)
      ensures accounts != [] && !CheckVerdict(inj).MarkConnected? ==> provider == old(provider)
    {
      if |accounts| == 0 {
        Disconnect();
      } else {
        CheckConnection(inj);
      }
    }

    /** The `chainChanged` listener: always re-checks. */
    method HandleChainChanged(inj: Injected)
      requires Valid()
      modifies this
      ensures Valid()
      ensures State() == AfterCheck(old(State()), CheckVerdict(inj), provider)
      ensures trace == old(trace) + (if CheckVerdict(inj).Keep? then [] else [Published(State())])
      ensures CheckVerdict(inj).MarkConnected? ==> fresh(provider)
      ensures !CheckVerdict(inj).MarkConnected? ==> provider == old(provider)
    {
      CheckConnection(inj);
    }
  }
}
