# Wallet-pairing session of the WalletConnect view

This project models the state machine behind the wallet-pairing view of the
Nifty interface. The view pairs an external wallet over WalletConnect. It keeps
one record (`IAppState`): the connector, the connection flag, the chain, the
peer's accounts, the address to bind, the fetched balances and an in-flight
flag. Its handlers replace that record step by step. They react to the three
push events of the transport (`connect`, `disconnect`, `session_update`),
reconcile a connector that is already connected when listeners are attached,
start or tear down a pairing, and fetch the balances of the bound address.

- `session.dfy` (module `Session`): the record, `INITIAL_STATE`, and one pure
  function per record replacement (`SetConnector`, `MarkConnected`,
  `UpdateBinding`, `BeginFetch`, `EndFetch`). It also holds the specification
  functions `Fetch`, `OnEvent` and `Subscribe`, which say what a whole handler
  does to the record. `Consistent` is the binding invariant the code keeps: a
  connected record binds the first account of its account list.
- `session_runs.dfy` (module `SessionRuns`): runs of delivered events, each
  handled to completion before the next. A reference definition
  (`ExpectedBinding`) gives the binding from the events alone. Lemmas by
  induction relate runs to it and to the invariant.
- `wallet_connect_view.dfy` (module `WalletConnectView`): class `View` with the
  mutable `state` field and one method per handler. Each method is proved
  against the functions above. A ghost log `calls` records the requests made
  outside the model: `createSession`, `killSession` and the asset query with
  its (address, chain).

The connector, the asset query service and React's `setState` are inputs. The
connector is a class whose `connected`, `accounts` and `chainId` the transport
owns. A new connector's status, and the answer to each asset query (balances
or a rejection), are parameters of the methods.

JavaScript's `accounts[0]` on an empty list is `undefined`. The model writes it
as `None` (`FirstAccount`), so no handler requires a non-empty account list.

## Where the design and the code differ

The model follows the code in each case below.

- The design wants overlapping balance fetches to resolve last-writer-by-start-order,
  with a generation check. The code keeps no generation. A successful fetch
  writes back the address it captured at its start, together with its balances.
  `Session.LateFetchOverwritesNewerBinding` shows the result: a `session_update`
  that lands during a fetch is overwritten. The connected record then no longer
  binds its own first account. Handlers in this model run their fetch to
  completion, so every other member keeps `Consistent`.
- The design says a connected session has a non-empty account list. The code
  never checks the peer's list. `Session.ConnectWithoutAccounts` shows a
  connected record with no accounts and no bound address.
- The design describes reconciliation at subscribe time as an update of the
  binding only. The code first marks the record connected, then runs the
  session-update path. `Session.Subscribe` proves that this gives the same
  record as an error-free `connect` event.

## Model

| member | source | states |
|---|---|---|
| `Session.FirstAccount` | src/views/LoggedIn/WalletConnectView.tsx:150 | the bound address is defined exactly when the account list is non-empty, and is then its first element |
| `Session.SetConnector` | src/views/LoggedIn/WalletConnectView.tsx:56 | holding a new connector changes no other field and keeps the binding invariant |
| `Session.MarkConnected` | src/views/LoggedIn/WalletConnectView.tsx:147-158 | `connected` becomes true, chain and accounts come from the payload, the bound address is the first account, the invariant holds afterwards, and no other field changes |
| `Session.UpdateBinding` | src/views/LoggedIn/WalletConnectView.tsx:166-169 | chain, accounts and bound address come from the update, `connected` is kept, the invariant holds afterwards, and no other field changes |
| `Session.BeginFetch` | src/views/LoggedIn/WalletConnectView.tsx:174-175 | starting a fetch sets only `fetching` and leaves the (address, chain) to query unchanged |
| `Session.EndFetch` | src/views/LoggedIn/WalletConnectView.tsx:176-189 | success clears `fetching`, stores the balances and writes back the captured address; failure only clears `fetching` and keeps the old balances; the invariant holds when the request matches the record |
| `Session.Fetch` | src/views/LoggedIn/WalletConnectView.tsx:173-190 | a completed fetch never changes connection, chain, accounts or bound address; it leaves `fetching` false and the balances are the answer, or the old ones on failure |
| `Session.OnEvent` | src/views/LoggedIn/WalletConnectView.tsx:90-119 | a listener throws exactly when its error argument is set; `disconnect` yields the initial record; `connect` and `session_update` bind the payload's chain, accounts and first account, with `connected` true or kept; everything else is kept; the result is settled and consistent |
| `Session.Subscribe` | src/views/LoggedIn/WalletConnectView.tsx:84-133 | no connector, or a connector that is not connected, leaves the record unchanged; an already-connected connector yields the same record as an error-free `connect` with its accounts and chain |
| `Session.LateFetchOverwritesNewerBinding` | src/views/LoggedIn/WalletConnectView.tsx:173-190 | a fetch that succeeds after an interleaved `session_update` restores the earlier address and breaks the binding invariant |
| `Session.ConnectWithoutAccounts` | src/views/LoggedIn/WalletConnectView.tsx:147-158 | a `connect` with an empty account list leaves a connected record with no bound address |
| `SessionRuns.RunFollowsEvents` | src/views/LoggedIn/WalletConnectView.tsx:90-119 | after any run of events, the binding equals the one computed from the events alone, whatever the asset queries answered |
| `SessionRuns.RunStaysSettled` | src/views/LoggedIn/WalletConnectView.tsx:90-119 | from a settled record, every run ends with no fetch in flight and a consistent binding |
| `SessionRuns.ErroredEventsChangeNothing` | src/views/LoggedIn/WalletConnectView.tsx:90-119 | any run of events whose error argument is set leaves the record exactly as it was |
| `SessionRuns.DisconnectClearsEverything` | src/views/LoggedIn/WalletConnectView.tsx:111-119 | a run ending in an error-free `disconnect` ends in exactly `INITIAL_STATE`, whatever came before |
| `SessionRuns.LatestUpdateWins` | src/views/LoggedIn/WalletConnectView.tsx:90-99 | after a `session_update` followed only by errored events, address, accounts and chain are that update's |
| `SessionRuns.PairUpdateDisconnect` | src/views/LoggedIn/WalletConnectView.tsx:90-119 | connect with 0xAA on chain 1 binds 0xAA; an update to 0xBB on chain 4 rebinds; a disconnect returns to the initial record |
| `Session.Connector.constructor` | src/views/LoggedIn/WalletConnectView.tsx:54 | a new connector reports the connection status, accounts and chain it came up with, which may be a restored session |
| `WalletConnectView.View.constructor` | src/views/LoggedIn/WalletConnectView.tsx:47 | the view starts from `INITIAL_STATE` with no external calls made |
| `WalletConnectView.View.ResetApp` | src/views/LoggedIn/WalletConnectView.tsx:143-145 | the record becomes exactly `INITIAL_STATE`, whatever it held |
| `WalletConnectView.View.KillSession` | src/views/LoggedIn/WalletConnectView.tsx:135-141 | `killSession` is sent to the held connector only when one is held, and the record becomes `INITIAL_STATE` |
| `WalletConnectView.View.GetAccountAssets` | src/views/LoggedIn/WalletConnectView.tsx:173-190 | one query is issued for the address and chain held at the start, and the record becomes `Fetch` of the old one |
| `WalletConnectView.View.OnConnect` | src/views/LoggedIn/WalletConnectView.tsx:147-160 | the record is marked connected from the payload, then the balances of the payload's first account and chain are fetched |
| `WalletConnectView.View.OnDisconnect` | src/views/LoggedIn/WalletConnectView.tsx:162-164 | a peer disconnect resets the record and makes no external call |
| `WalletConnectView.View.OnSessionUpdate` | src/views/LoggedIn/WalletConnectView.tsx:166-171 | the binding is updated from the payload, then the balances of the new first account and chain are fetched |
| `WalletConnectView.View.HandleEvent` | src/views/LoggedIn/WalletConnectView.tsx:90-119 | a listener with its error set throws and changes nothing; otherwise the record becomes `OnEvent` of the old one, and a query for the new binding is issued except on `disconnect` |
| `WalletConnectView.View.SubscribeToEvents` | src/views/LoggedIn/WalletConnectView.tsx:84-133 | without a connector nothing happens; otherwise the record becomes `Subscribe` of the old one for the connector's status, with a query only when it reports connected |
| `WalletConnectView.View.Connect` | src/views/LoggedIn/WalletConnectView.tsx:49-70 | a new connector is held; if it is already connected it is killed and the record is reset, otherwise `createSession` is requested; exactly one of the two happens, and the subscription that follows changes nothing |

## Left out

- Rendering, markup and `toggleModal` (src/views/LoggedIn/WalletConnectView.tsx:192-223), and the page layout in src/components/layout/index.tsx: they are display only. `showModal` stays an untouched field.
- `getInfos` and Web3's `getAccounts` (src/views/LoggedIn/WalletConnectView.tsx:76-82): they read a foreign wallet and only set `address_w3a`. `WalletConnectView.View.Connect` skips that step, and `address_w3a` stays an untouched field.
- The WalletConnect client, the bridge URL and the QR modal: the connector is a class with three status fields. `createSession` and `killSession` are entries in the `calls` log.
- The HTTP call `apiGetAccountAssets`: its answer is an input (`FetchResult`). The `Asset` record is a passthrough with no structure checked; its real type is not part of this model.
- Listener registration through `connector.on`, re-subscription by `useEffect` when the connector changes (src/views/LoggedIn/WalletConnectView.tsx:72-74), and the duplicate listeners that it leaves on a connector. `SubscribeToEvents` models only what subscribing does to the record. Events are delivered by calling `HandleEvent`.
- Async scheduling and React's stale closures. Every `setState({ ...state, ... })` is one atomic replacement of the current record, in program order. In the running component, a handler's `state` may be the snapshot of an earlier render. The only interleaving modelled is the fetch completion of `Session.LateFetchOverwritesNewerBinding`.
- A payload without `params[0]`: in the code, destructuring it throws. Here a payload always carries its `(accounts, chainId)` pair.
- `console.log` and `console.error`; the fields `uri`, `pendingRequest` and `result`, which no handler reads or writes. They are kept as untouched fields.
- `WalletConnectView.View.Connect`: the transport does not change the new connector's status between its creation and the subscription. So the reconciliation branch is never taken inside `connect`, and the `fetched` parameter goes unused there.
