/** The legacy connector configuration: RPC endpoint per deploy type, the default chain id,
    the chess contract address read from the deployment manifest, and the session policies. */
module CartridgeConnector {
  import opened Js
  import Hex
  import Wallet

  const LocalhostRpc := "http://localhost:5050"
  const MainnetRpc := "https://api.cartridge.gg/x/starknet/mainnet"
  const SepoliaRpc := "https://api.cartridge.gg/x/starknet/sepolia"

  /** `getRpcUrl` for the value of `VITE_PUBLIC_DEPLOY_TYPE` (`None` when unset). */
  function GetRpcUrl(deployType: Option<string>): (r: string)
    ensures r in {LocalhostRpc, MainnetRpc, SepoliaRpc}
    ensures r == LocalhostRpc <==> deployType == Some("localhost")
    ensures r == MainnetRpc <==> deployType == Some("mainnet")
    ensures r == SepoliaRpc <==> deployType != Some("localhost") && deployType != Some("mainnet")
  {
    match deployType
    case Some("localhost") => LocalhostRpc
    case Some("mainnet") => MainnetRpc
    case Some("sepolia") => SepoliaRpc
    case _ => SepoliaRpc
  }

  /** `getDefaultChainId`: the same chain id the wallet hook sends, the hexadecimal form of 5000. */
  function GetDefaultChainId(): (r: string)
    ensures r == Wallet.MantleNetwork.chainId
    ensures |r| > 2 && r[..2] == "0x" && Hex.ParseHex(r[2..]) == Wallet.MantleChainId
  {
    Wallet.MantleChainIdHex();
    "0x1388"
  }

  /** A manifest entry (`null` entries are `None`); `tag` and `address` may be missing. */
  datatype Contract = Contract(tag: Option<string>, address: Option<string>)

  /** The manifest's `contracts` member: missing, an array, or some other value, on which
      `find` throws and indexing yields `undefined`. */
  datatype ContractsField = Missing | Items(items: seq<Option<Contract>>) | NotAnArray

  datatype Manifest = Manifest(contracts: ContractsField)

  const ChessTag := "full_starter_react-chess_actions"

  /** `c?.tag === tag`. */
  predicate HasTag(c: Option<Contract>, tag: string)
  {
    c.Some? && c.value.tag == Some(tag)
  }

  /** `Array.prototype.find` with `HasTag`: the index of the first entry with the tag. */
  function FindTagged(items: seq<Option<Contract>>, tag: string): (r: Option<nat>)
    ensures r.Some? ==>
      && r.value < |items| && HasTag(items[r.value], tag)
      && forall j :: 0 <= j < r.value ==> !HasTag(items[j], tag)
    ensures r.None? ==> forall j :: 0 <= j < |items| ==> !HasTag(items[j], tag)
    decreases |items|
  {
    if items == [] then None
    else if HasTag(items[0], tag) then Some(0)
    else match FindTagged(items[1..], tag)
      case None => None
      case Some(k) => Some(k + 1)
  }

  /** Entry `i` is the first one carrying the tag. */
  ghost predicate FirstTagged(m: Manifest, tag: string, i: nat)
  {
    && m.contracts.Items? && i < |m.contracts.items|
    && HasTag(m.contracts.items[i], tag)
    && forall j :: 0 <= j < i ==> !HasTag(m.contracts.items[j], tag)
  }

  /** `getContractAddressByTag`: the address of the first entry with the tag, or `null` when no
      entry has it, when `contracts` is missing, when that entry has no address, or when `find`
      throws. */
  function GetContractAddressByTag(m: Manifest, tag: string): (r: Option<string>)
    ensures forall i: nat :: FirstTagged(m, tag, i) ==> r == m.contracts.items[i].value.address
    ensures (forall i: nat :: !FirstTagged(m, tag, i)) ==> r == None
  {
    match m.contracts
    case Missing => None
    case NotAnArray => None
    case Items(items) =>
      match FindTagged(items, tag)
      case None => None
      case Some(i) => items[i].value.address
  }

  /** `CONTRACT_ADDRESS_FALLBACK`, `contracts?.[0]?.address ?? null`: the address of the first
      entry when `contracts` is an array whose first entry is present, and `null` otherwise. */
  function FirstAddress(m: Manifest): (r: Option<string>)
    ensures m.contracts.Items? && |m.contracts.items| > 0 && m.contracts.items[0].Some? ==>
      r == m.contracts.items[0].value.address
    ensures !(m.contracts.Items? && |m.contracts.items| > 0 && m.contracts.items[0].Some?) ==> r == None
  {
    match m.contracts
    case Items(items) => if |items| > 0 && items[0].Some? then items[0].value.address else None
    case _ => None
  }

  /** `CONTRACT_ADDRESS`: the tagged address if truthy, else the first entry's address if
      truthy, else "0x0"; never empty. */
  function ContractAddress(m: Manifest): (r: string)
    ensures r != ""
    ensures Truthy(GetContractAddressByTag(m, ChessTag)) ==> r == GetContractAddressByTag(m, ChessTag).value
    ensures !Truthy(GetContractAddressByTag(m, ChessTag)) && Truthy(FirstAddress(m)) ==> r == FirstAddress(m).value
    ensures r == "0x0" <==>
      || (!Truthy(GetContractAddressByTag(m, ChessTag)) && !Truthy(FirstAddress(m)))
      || GetContractAddressByTag(m, ChessTag) == Some("0x0")
      || (!Truthy(GetContractAddressByTag(m, ChessTag)) && FirstAddress(m) == Some("0x0"))
  {
    var tagged := GetContractAddressByTag(m, ChessTag);
    var first := FirstAddress(m);
    if Truthy(tagged) then tagged.value else if Truthy(first) then first.value else "0x0"
  }

  datatype PolicyMethod = PolicyMethod(name: string, entrypoint: string)

  datatype ContractPolicy = ContractPolicy(methods: seq<PolicyMethod>)

  datatype Policies = Policies(contracts: map<string, ContractPolicy>)

  const PolicyEntrypoints := ["create_single_player_game", "make_move", "resign_game"]

  /** `policies`: no contract when the address is the "0x0" placeholder; otherwise exactly the
      chess contract, allowed the three state-changing entrypoints, each named after itself. */
  function MakePolicies(m: Manifest): (p: Policies)
    ensures |p.contracts| == 0 <==> ContractAddress(m) == "0x0"
    ensures ContractAddress(m) != "0x0" ==>
      && p.contracts.Keys == {ContractAddress(m)}
      && |p.contracts[ContractAddress(m)].methods| == 3
      && forall k :: 0 <= k < 3 ==>
           var pm := p.contracts[ContractAddress(m)].methods[k];
           pm.name == pm.entrypoint == PolicyEntrypoints[k]
  {
    var address := ContractAddress(m);
    if address != "0x0" then
      Policies(map[address := ContractPolicy([
        PolicyMethod("create_single_player_game", "create_single_player_game"),
        PolicyMethod("make_move", "make_move"),
        PolicyMethod("resign_game", "resign_game")])])
    else Policies(map[])
  }
}
