# Wallet connection core of chain-mate, modelled in Dafny

The chain-mate client connects to a browser wallet that injects a provider (`window.ethereum`). It
insists on one network, Mantle (chain id 5000). The core is the `useWallet` hook. It keeps one
`WalletState` record (`status`, `address`, `isConnecting`, `provider`, `signer`). It changes that
record through `connect`, `disconnect` and `checkConnection`, and through the two provider events
`accountsChanged` and `chainChanged`. Around it sit a status adapter (`useWalletConnect`), two
permission-guarded stub hooks (`useChessMove`, `useSpawnPlayer`) and two configuration files of
lookup tables (`contracts.ts`, `cartridgeConnector.tsx`).

How it is modelled:

- The injected provider is an oracle. `Wallet.Injected` says how each call would settle right now:
  `Ok(value)` or `Err(JsError(code, message))`. `None` means no provider is injected, and
  `Wallet.IsMetaMaskInstalled` is the test for it. An operation
  receives the oracle as a parameter, so its answers may differ from one operation to the next.
- `ethers.BrowserProvider` is an opaque class, and each construction allocates a new one.
  A `JsonRpcSigner` is known by the answer its `getAddress()` gives.
- The hook is the class `Wallet.Connection`. It holds the five state fields and a ghost `trace`.
  The trace lists every state written with `setState` and every request the hook itself sends
  through `window.ethereum.request`, in order. The requests that `ethers` sends on the same
  channel (`listAccounts`, `getSigner`, `getNetwork`) are not in it. This is how the model states orderings such as "connecting
  is published before the first request".
- The object invariant `Valid()` holds between operations. It says: a connected state has an
  address, a provider and a signer; the address is the one the signer reports; `isConnecting` is
  true exactly when the status is `connecting`; and no attempt is in progress. Every state the
  trace ever publishes satisfies the same record invariant (`Consistent`).
- Each operation is specified by a function of the old state and the oracle: `AfterConnect` and
  `ConnectTrace`, `CheckVerdict` and `AfterCheck`. The lemmas beside those functions state the
  source's promises.
- The stub hooks are classes over their state cells. Each keeps a ghost list of the states React
  renders. The updates made between two awaits are taken to render together.
- The configuration files are pure functions. Build-time environment variables and the deployment
  manifest are parameters. A JavaScript string that may be `null` or `undefined` is an `Option`.
  The falsy tests that `||` makes are written out (`Js.Truthy`).

What the code does, and the model with it:

- Every `connect` call runs the whole handshake; nothing merges concurrent calls.
- Nothing discards a late `connect` result after a `disconnect`.
- `connect` does not re-read the chain id after the switch (client/src/hooks/useWallet.tsx:102-115);
  only `checkConnection` compares it with 5000 (client/src/hooks/useWallet.tsx:158).
- `address`, `provider` and `signer` survive a failed `connect` and a wrong-network check. Only
  `status` (and `isConnecting`) change in those cases.
- There is no error field in the state record; errors are re-thrown.
- Accounts are requested before the network switch.

## Model

| member | source | states |
|---|---|---|
| `Hex.ToHex` | client/src/hooks/useWallet.tsx:8 | the digits of `toString(16)`: at least one, each a lower-case hexadecimal digit, with a leading zero exactly for 0 |
| `Hex.ParseToHex` | client/src/hooks/useWallet.tsx:8 | parsing the hexadecimal digits of n gives back n, so the chain id string loses nothing |
| `Hex.ToHex5000` | client/src/hooks/useWallet.tsx:8 | `(5000).toString(16)` is "1388" |
| `Wallet.MantleChainIdHex` | client/src/hooks/useWallet.tsx:5-17 | the chain id in the Mantle parameter record is "0x1388", and it parses back to 5000 |
| `Wallet.AddChainOutcomes` | client/src/hooks/useWallet.tsx:44-60 | the add-chain step resolves on success and on a 4902 rejection; it re-throws every other rejection unchanged |
| `Wallet.SwitchOutcomes` | client/src/hooks/useWallet.tsx:62-81 | the switch request carries "0x1388"; a 4902 rejection leads to exactly one add-chain request with the Mantle parameters, and the add step's outcome; any other rejection propagates with no further request |
| `Wallet.Connection.AddMantleNetwork` | client/src/hooks/useWallet.tsx:44-60 | without a provider it rejects with the install message and sends nothing; otherwise it sends one add-chain request with the Mantle parameters and settles as `AddReply` |
| `Wallet.Connection.SwitchToMantleNetwork` | client/src/hooks/useWallet.tsx:62-81 | without a provider it rejects with "MetaMask is not installed"; otherwise it settles as `SwitchReply` after exactly the requests of `SwitchEvents` |
| `Wallet.IsMetaMaskInstalled` | client/src/hooks/useWallet.tsx:39-41 | true exactly when a provider is injected |
| `Wallet.Connection.Connect` | client/src/hooks/useWallet.tsx:84-127 | keeps `Valid()`; the reply, the new state and the published states and requests are those of `ConnectReply`, `AfterConnect` and `ConnectTrace`; on success the stored provider is the one newly constructed, and any provider it stores is new |
| `Wallet.ConnectWithoutProvider` | client/src/hooks/useWallet.tsx:84-87 | with no injected provider, `connect` rejects with "MetaMask is not installed. Please install MetaMask to continue.", leaves the state untouched and publishes nothing |
| `Wallet.ConnectStartsConnecting` | client/src/hooks/useWallet.tsx:89-99 | the first event is the published `connecting` state with `isConnecting` true, and the account request comes second; a null or empty account list rejects with "No accounts found" and no switch is requested |
| `Wallet.ConnectFailure` | client/src/hooks/useWallet.tsx:118-126 | every failure after the presence check gives `disconnected`, `isConnecting` false, the old address, provider and signer, and re-throws the provider's own error, or "No accounts found" |
| `Wallet.ConnectSuccess` | client/src/hooks/useWallet.tsx:104-115 | a resolved `connect` gives `connected`, `isConnecting` false, the new provider, the signer, and that signer's address; the record is consistent |
| `Wallet.ConnectSucceedsIff` | client/src/hooks/useWallet.tsx:84-127 | `connect` resolves exactly when four things hold: the account list is non-empty, the switch is accepted (or answers 4902 and the add is accepted or answers 4902), the signer is obtained, and its address is obtained |
| `Wallet.Connection.constructor` | client/src/hooks/useWallet.tsx:30-36 | the hook starts in the initial record (disconnected, everything null, not connecting), which satisfies `Valid()` |
| `Wallet.Connection.Disconnect` | client/src/hooks/useWallet.tsx:130-139 | from any valid state the record becomes exactly the initial record, with one publication, so a second call leaves the same record |
| `Wallet.Connection.CheckConnection` | client/src/hooks/useWallet.tsx:147-177 | keeps `Valid()`; the new state is `AfterCheck` of the old state and `CheckVerdict`; it publishes only when the verdict is not to keep; the provider changes only when the state becomes connected |
| `Wallet.CheckOutcomes` | client/src/hooks/useWallet.tsx:147-177 | four outcomes: no accounts keeps the state; a rejection from any of `listAccounts`, `getSigner`, `getAddress` or `getNetwork` is swallowed and keeps the state; accounts on chain 5000 give a connected record with the signer's address; accounts on any other chain set only the status to `disconnected` |
| `Wallet.CheckConnectsOnlyOnMantle` | client/src/hooks/useWallet.tsx:155-165 | if `checkConnection` turns a state that was not connected into a connected one, the provider reported chain 5000 |
| `Wallet.Connection.Mount` | client/src/hooks/useWallet.tsx:142-179 | without a provider the mount effect changes nothing; otherwise it performs one `checkConnection`: its new state, its publications and its provider |
| `Wallet.Connection.HandleAccountsChanged` | client/src/hooks/useWallet.tsx:182-188 | an empty account list resets to the initial record (a `disconnect`); any other list gives the `checkConnection` outcome: its new state, its publications and its provider |
| `Wallet.Connection.HandleChainChanged` | client/src/hooks/useWallet.tsx:191-193 | a chain change gives exactly the `checkConnection` outcome: its new state, its publications, and a new provider exactly when it becomes connected |
| `WalletConnect.MappedStatus` | client/src/hooks/useWalletConnect.tsx:29-31 | the three-way conditional maps each of the three statuses to itself |
| `WalletConnect.View` | client/src/hooks/useWalletConnect.tsx:33-42 | status, address and isConnecting pass through from the context; `controllerUsername` is null and `hasTriedConnect` is false |
| `WalletConnect.Property` | client/src/hooks/useWalletConnect.tsx:33-42 | the object's own properties are exactly the eight keys it is built with (inherited members such as `toString` are not modelled); `status` reads as the status text |
| `WalletConnect.ViewProperties` | client/src/hooks/useWalletConnect.tsx:33-42 | callers read `controllerUsername` as null and `hasTriedConnect` as false; `error` and `isMetaMaskInstalled`, which the landing page destructures, read as `undefined` |
| `WalletConnect.HandleConnect` | client/src/hooks/useWalletConnect.tsx:15-22 | resolves exactly when `connect` resolves and re-throws the same error; the wallet's state and trace are those of `connect`, and on success its provider is newly constructed |
| `WalletConnect.HandleDisconnect` | client/src/hooks/useWalletConnect.tsx:24-26 | performs exactly `disconnect`: the initial record, published once |
| `ChessMove.View` | client/src/hooks/useChessMove.tsx:88-98 | `isConnected` holds exactly when the status is connected; `supportsCreateGame` and `supportsResignGame` are true |
| `ChessMove.Mover.constructor` | client/src/hooks/useChessMove.tsx:15-17 | the cells start as not moving, no error, no hash |
| `ChessMove.Mover.Submit` | client/src/hooks/useChessMove.tsx:19-40 | not connected: only `error` changes, to "Wallet not connected", which is returned with success false; connected: a render with `isMoving` true and `error` null comes first; afterwards `isMoving` is false; on success the hash is stored and returned; on failure the message or the operation's default is stored and returned, and `txHash` is kept |
| `ChessMove.Mover.MakeMove` | client/src/hooks/useChessMove.tsx:19-40 | the `Submit` discipline with the default "Move failed" |
| `ChessMove.Mover.CreateGame` | client/src/hooks/useChessMove.tsx:42-63 | the `Submit` discipline with the default "Game creation failed" |
| `ChessMove.Mover.ResignGame` | client/src/hooks/useChessMove.tsx:65-86 | the `Submit` discipline with the default "Resign failed" |
| `SpawnPlayer.Initializer.constructor` | client/src/hooks/useSpawnPlayer.tsx:7-10 | the cells start as not initializing, no hash, no status, step `checking` |
| `SpawnPlayer.Initializer.InitializePlayer` | client/src/hooks/useSpawnPlayer.tsx:12-37 | not connected: returns success false, playerExists false, "Wallet not connected", and changes nothing; connected: the first render has `isInitializing` true, step `checking` and status PENDING, and afterwards `isInitializing` is false; on success the step is `success`, the status SUCCESS and the hash is stored, and it returns success true with playerExists false; on failure the status is REJECTED and it returns the message or "Failed to initialize player" |
| `SpawnPlayer.View` | client/src/hooks/useSpawnPlayer.tsx:39-50 | `completed` holds exactly when the status is SUCCESS, `isConnected` exactly when the wallet is connected, `error` is null and `playerExists` false |
| `Contracts.OrDefault` | client/src/config/contracts.ts:4-8 | the fallback gives the override exactly when it is a non-empty string |
| `Contracts.MatchManagerAddresses` | client/src/config/contracts.ts:2-9 | the table has exactly the keys 8453, 42220 and 44787; each entry is its non-empty override or its fixed default, so no entry is empty |
| `Contracts.GetMatchManagerAddress` | client/src/config/contracts.ts:11-14 | the result is always a table value: the 8453 entry for an absent or zero id and for an unlisted id, and the listed id's own entry otherwise |
| `Contracts.ExplorerBase` | client/src/config/contracts.ts:24 | an absent or zero id gives basescan; a listed id gives its URL; an unlisted id gives `undefined`, with no fallback |
| `Contracts.GetExplorerUrl` | client/src/config/contracts.ts:23-26 | the result is `undefined` exactly when there is no hash and the id is unlisted; with a truthy hash it is the base, then "/tx/", then the hash; otherwise it is the base itself |
| `Contracts.ExplorerUrlUnknownChain` | client/src/config/contracts.ts:24-25 | for chain 1 the function returns `undefined` without a hash and "undefined/tx/0xab" with hash "0xab" |
| `Contracts.GetExplorerUrlWithFallback` | client/src/config/contracts.ts:23-26 | the repaired function: an unlisted id falls back to basescan, as the address lookup does |
| `Contracts.FallbackAlwaysKnown` | client/src/config/contracts.ts:23-26 | every URL the repaired function builds begins with one of the three explorer URLs |
| `CartridgeConnector.GetRpcUrl` | client/src/config/cartridgeConnector.tsx:13-24 | the result is one of three URLs: the localhost URL exactly for "localhost", the mainnet URL exactly for "mainnet", and the sepolia URL for "sepolia", any other value or an unset variable |
| `CartridgeConnector.GetDefaultChainId` | client/src/config/cartridgeConnector.tsx:26-29 | "0x1388" is the same chain id string the wallet hook sends, and its digits parse to 5000 |
| `CartridgeConnector.FindTagged` | client/src/config/cartridgeConnector.tsx:33 | `find` gives the index of the first entry with the tag, or none when no entry has it |
| `CartridgeConnector.GetContractAddressByTag` | client/src/config/cartridgeConnector.tsx:31-38 | the address of the first entry with the tag; null when no entry has it, when `contracts` is missing or not an array, or when that entry has no address |
| `CartridgeConnector.FirstAddress` | client/src/config/cartridgeConnector.tsx:43 | the first entry's address when `contracts` is an array whose first entry is present; `null` otherwise |
| `CartridgeConnector.ContractAddress` | client/src/config/cartridgeConnector.tsx:41-44 | never empty: the tagged address if truthy, else the first entry's address if truthy, else "0x0" |
| `CartridgeConnector.MakePolicies` | client/src/config/cartridgeConnector.tsx:48-59 | the contracts map is empty exactly when the address is "0x0"; otherwise it has the one key, with three methods; each method's name equals its entrypoint, in the order create_single_player_game, make_move, resign_game |

## Findings

| source | as written | input that shows it | evidently intended | confidence | as-written member | corrected member |
|---|---|---|---|---|---|---|
| client/src/config/contracts.ts:24 | an unlisted non-zero chain id yields an `undefined` base URL, although the function is declared to return a string | `getExplorerUrl(1, "0xab")` returns "undefined/tx/0xab"; `getExplorerUrl(1)` returns `undefined` | fall back to the Base explorer, as `getMatchManagerAddress` falls back to the Base address | medium, not executed | `Contracts.ExplorerUrlUnknownChain` | `Contracts.GetExplorerUrlWithFallback` |

## Left out

- Asynchronous interleaving: every operation runs to completion before the next starts. So the model cannot show a `checkConnection` (for example, one fired by the `chainChanged` that a successful switch causes) running in the middle of a `connect`. Concurrent `connect` calls are not coalesced and stale results are not discarded, matching the code.
- `Wallet.Connection.Connect`: the `setState(prev => …)` updates read the state at the moment they run. In the atomic model that is the state `connect` itself last wrote.
- The internals of `ethers` (`BrowserProvider`, `getSigner`, `getAddress`, `listAccounts`, `getNetwork`) are foreign code. Each call is one oracle answer, and `getNetwork` answers the chain id already converted with `Number`.
- The `typeof window` test of `isMetaMaskInstalled` falls into provider presence. With no window there is no injected provider either.
- Listener registration and removal (`window.ethereum.on` / `removeListener`) and the effect cleanup are plumbing. Only the two listeners are modelled, as methods the environment may call.
- `console.log` / `console.error` output: not modelled.
- The random hash and `setTimeout` delays of the stub hooks are nondeterministic. The awaited work is one `Reply<string>` oracle per call.
- `ChessMove.Mover.Submit`, `SpawnPlayer.Initializer.InitializePlayer`: the renders assume React batches the updates made between two awaits.
- The unused arguments of `makeMove`, `createGame` and `resignGame` are kept as parameters only.
- The no-op callbacks `setHasTriedConnect` and `resetInitializer` appear only as property names. The steps `spawning` and `loading` exist in the type, but the code never enters them.
- Chain ids are integers. `NaN`, which `!chainId` also treats as falsy, is not modelled in `Contracts`.
- `client/src/config/manifest.ts` is not part of this model. Every branch of it yields the same sepolia manifest, so the manifest is a parameter.
- `client/src/providers/WalletProvider.tsx` and `client/src/main.tsx` are context and bootstrap glue, and are not part of this model.
- The pages (`LandingPage.tsx`, `ChessScreen.tsx`), including their one-second local-storage poll, are UI concerns and are not part of this model.
