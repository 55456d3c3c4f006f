/** Per-network lookup tables: the match-manager contract address and the block-explorer URL.
    Build-time environment overrides are parameters (`None` when unset). */
module Contracts {
  import opened Js

  const Base := 8453
  const Celo := 42220
  const CeloSepolia := 44787

  const DefaultBaseManager := "0xAD473eaA51821c915D03D9dB5349A0586d55E55e"
  const DefaultCeloManager := "0x8D092fd130323601de13AFF0D4BA8900c6ca9C9f"
  const DefaultCeloSepoliaManager := "0x3D15251E40A631793637B2DFD6433EaDEc821853"

  /** `VITE_MATCH_MANAGER_BASE`, `VITE_MATCH_MANAGER_CELO`, `VITE_MATCH_MANAGER_CELO_SEPOLIA`. */
  datatype Env = Env(base: Option<string>, celo: Option<string>, celoSepolia: Option<string>)

  /** `override || fallback`. */
  function OrDefault(override: Option<string>, fallback: string): (r: string)
    ensures Truthy(override) ==> r == override.value
    ensures !Truthy(override) ==> r == fallback
  {
    if Truthy(override) then override.value else fallback
  }

  /** `MATCH_MANAGER_ADDRESSES`: three entries, each the override when it is non-empty and the
      fixed default otherwise, so no entry is empty. */
  function MatchManagerAddresses(env: Env): (t: map<int, string>)
    ensures t.Keys == {Base, Celo, CeloSepolia}
    ensures forall id :: id in t ==> t[id] != ""
    ensures t[Base] == (if Truthy(env.base) then env.base.value else DefaultBaseManager)
    ensures t[Celo] == (if Truthy(env.celo) then env.celo.value else DefaultCeloManager)
    ensures t[CeloSepolia] == (if Truthy(env.celoSepolia) then env.celoSepolia.value else DefaultCeloSepoliaManager)
  {
    map[Base := OrDefault(env.base, DefaultBaseManager),
        Celo := OrDefault(env.celo, DefaultCeloManager),
        CeloSepolia := OrDefault(env.celoSepolia, DefaultCeloSepoliaManager)]
  }

  /** `!chainId`: an absent id and 0 are falsy. */
  predicate Falsy(chainId: Option<int>)
  {
    chainId.None? || chainId.value == 0
  }

  /** `getMatchManagerAddress`: an absent or zero id, or an id without an entry, gives the Base
      entry; a listed id gives its own entry; the result is always a table value. */
  function GetMatchManagerAddress(env: Env, chainId: Option<int>): (r: string)
    ensures var t := MatchManagerAddresses(env);
      && r in t.Values
      && (Falsy(chainId) ==> r == t[Base])
      && (!Falsy(chainId) && chainId.value in t ==> r == t[chainId.value])
      && (!Falsy(chainId) && chainId.value !in t ==> r == t[Base])
  {
    var t := MatchManagerAddresses(env);
    if Falsy(chainId) then t[Base]
    else
      var entry := if chainId.value in t then Some(t[chainId.value]) else None;
      if Truthy(entry) then entry.value else t[Base]
  }

  const ExplorerUrls := map[Base := "https://basescan.org",
                            Celo := "https://celoscan.io",
                            CeloSepolia := "https://sepolia.celoscan.io"]

  /** The base URL `getExplorerUrl` picks; `None` is `undefined`. */
  function ExplorerBase(chainId: Option<int>): (b: Option<string>)
    ensures Falsy(chainId) ==> b == Some("https://basescan.org")
    ensures !Falsy(chainId) && chainId.value in ExplorerUrls ==> b == Some(ExplorerUrls[chainId.value])
    ensures !Falsy(chainId) && chainId.value !in ExplorerUrls ==> b == None
  {
    if !Falsy(chainId) then
      (if chainId.value in ExplorerUrls then Some(ExplorerUrls[chainId.value]) else None)
    else Some(ExplorerUrls[Base])
  }

  /** Template-string interpolation of a possibly undefined string. */
  function Interpolate(s: Option<string>): string
  {
    if s.Some? then s.value else "undefined"
  }

  /** `getExplorerUrl` as written; the result is `None` when it returns `undefined`. */
  function GetExplorerUrl(chainId: Option<int>, txHash: Option<string>): (r: Option<string>)
    ensures r.None? <==> !Truthy(txHash) && !Falsy(chainId) && chainId.value !in ExplorerUrls
    ensures Truthy(txHash) ==> r == Some(Interpolate(ExplorerBase(chainId)) + "/tx/" + txHash.value)
    ensures !Truthy(txHash) ==> r == ExplorerBase(chainId)
  {
    var baseUrl := ExplorerBase(chainId);
    if Truthy(txHash) then Some(Interpolate(baseUrl) + "/tx/" + txHash.value) else baseUrl
  }

  /** For a chain outside the table the function returns `undefined` without a hash and a
      link starting with "undefined" with one, although it is declared to return a string. */
  lemma ExplorerUrlUnknownChain()
    ensures GetExplorerUrl(Some(1), None) == None
    ensures GetExplorerUrl(Some(1), Some("0xab")) == Some("undefined/tx/0xab")
  {
    assert ExplorerBase(Some(1)) == None;
    assert Interpolate(None) + "/tx/" + "0xab" == "undefined/tx/0xab";
  }

  /** `getExplorerUrl` with the Base fallback that `getMatchManagerAddress` uses. */
  function GetExplorerUrlWithFallback(chainId: Option<int>, txHash: Option<string>): (r: string)
    ensures var known := if !Falsy(chainId) && chainId.value in ExplorerUrls
                         then ExplorerUrls[chainId.value] else ExplorerUrls[Base];
      && (Truthy(txHash) ==> r == known + "/tx/" + txHash.value)
      && (!Truthy(txHash) ==> r == known)
  {
    var baseUrl := match ExplorerBase(chainId)
                   case Some(url) => url
                   case None => ExplorerUrls[Base];
    if Truthy(txHash) then baseUrl + "/tx/" + txHash.value else baseUrl
  }

  /** With the fallback every result begins with one of the three explorer URLs. */
  lemma FallbackAlwaysKnown(chainId: Option<int>, txHash: Option<string>)
    ensures exists id :: id in ExplorerUrls && ExplorerUrls[id] <= GetExplorerUrlWithFallback(chainId, txHash)
  {
    var id := if !Falsy(chainId) && chainId.value in ExplorerUrls then chainId.value else Base;
    var u := GetExplorerUrlWithFallback(chainId, txHash);
    if Truthy(txHash) {
      assert u == ExplorerUrls[id] + ("/tx/" + txHash.value);
    }
    assert ExplorerUrls[id] <= u;
  }
}
