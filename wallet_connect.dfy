/** The compatibility adapter over the wallet context: it maps the status, re-throws connect
    errors and returns a record shaped like an older connector's. */
module WalletConnect {
  import opened Js
  import opened Wallet

  /** `status === "connected" ? "connected" : status === "connecting" ? "connecting" : "disconnected"`. */
  function MappedStatus(status: WalletStatus): (r: WalletStatus)
    ensures r == status
  {
    if status.Connected? then Connected
    else if status.Connecting? then Connecting
    else Disconnected
  }

  function StatusText(status: WalletStatus): string
  {
    match status
    case Disconnected => "disconnected"
    case Connecting => "connecting"
    case Connected => "connected"
  }

  /** The record the adapter returns, without its function-valued members. */
  datatype ConnectView = ConnectView(
    status: WalletStatus,
    address: Option<Address>,
    isConnecting: bool,
    controllerUsername: Option<string>,
    hasTriedConnect: bool)

  /** The adapter's record for a context state. */
  function View(s: WalletState): (v: ConnectView)
    ensures v.status == s.status && v.address == s.address && v.isConnecting == s.isConnecting
    ensures v.controllerUsername == None && !v.hasTriedConnect
  {
    ConnectView(MappedStatus(s.status), s.address, s.isConnecting, None, false)
  }

  /** A property read on the returned object, as JavaScript sees it. */
  datatype JsValue = Undefined | Null | Bool(b: bool) | Str(s: string) | Callback(name: string)

  /** The property names the returned object has. */
  const Keys := {"status", "address", "isConnecting", "handleConnect", "handleDisconnect",
                 "controllerUsername", "setHasTriedConnect", "hasTriedConnect"}

  function Property(v: ConnectView, key: string): (r: JsValue)
    ensures r != Undefined <==> key in Keys
    ensures key == "status" ==> r == Str(StatusText(v.status))
  {
    if key == "status" then Str(StatusText(v.status))
    else if key == "address" then (if v.address.Some? then Str(v.address.value) else Null)
    else if key == "isConnecting" then Bool(v.isConnecting)
    else if key == "handleConnect" || key == "handleDisconnect" || key == "setHasTriedConnect"
    then Callback(key)
    else if key == "controllerUsername" then (if v.controllerUsername.Some? then Str(v.controllerUsername.value) else Null)
    else if key == "hasTriedConnect" then Bool(v.hasTriedConnect)
    else Undefined
  }

  /** What a caller reads from the adapter: `controllerUsername` is `null`, `hasTriedConnect`
      is `false`, and `error` and `isMetaMaskInstalled`, which callers destructure, are
      `undefined`, since the record has neither field. */
  lemma ViewProperties(s: WalletState)
    ensures Property(View(s), "controllerUsername") == Null
    ensures Property(View(s), "hasTriedConnect") == Bool(false)
    ensures Property(View(s), "error") == Undefined
    ensures Property(View(s), "isMetaMaskInstalled") == Undefined
  {
  }

  /** `handleConnect`: resolves exactly when `connect` resolves and re-throws its error. */
  method HandleConnect(wallet: Connection, eth: Option<Injected>) returns (r: Reply<()>)
    requires wallet.Valid()
    modifies wallet
    ensures wallet.Valid()
    ensures r == ConnectReply(eth)
    ensures wallet.State() == AfterConnect(old(wallet.State()), eth, wallet.provider)
    ensures wallet.trace == old(wallet.trace) + ConnectTrace(old(wallet.State()), eth, wallet.provider)
    ensures r.Ok? ==> fresh(wallet.provider)
  {
    r := wallet.Connect(eth);
  }

  /** `handleDisconnect`: exactly `disconnect`. */
  method HandleDisconnect(wallet: Connection)
    requires wallet.Valid()
    modifies wallet
    ensures wallet.Valid()
    ensures wallet.State() == Initial && wallet.trace == old(wallet.trace) + [Published(Initial)]
  {
    wallet.Disconnect();
  }
}
