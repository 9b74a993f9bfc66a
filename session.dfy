/**
 * The record behind the wallet-pairing view (`IAppState`) and the pure
 * transitions that replace it. Every `setState({ ...state, ... })` of the view
 * is one function here; the handlers that sequence them live in
 * module WalletConnectView.
 */
module Session {

  datatype Option<T> = None | Some(value: T)

  /** An account address as the wallet reports it (a hex string). */
  type Address = string

  /**
   * One balance line of the asset query service. The core passes it through
   * without looking inside it.
   */
  datatype Asset = Asset(symbol: string, balance: string)

  /**
   * The WalletConnect connector. Its status fields are owned by the transport,
   * which may change them between the view's handlers; the view only reads them.
   */
  class Connector {
    var connected: bool
    var accounts: seq<Address>
    var chainId: int

    /** `new WalletConnect(...)`: a new connector may restore a stored session. */
    constructor (connected: bool, accounts: seq<Address>, chainId: int)
      ensures this.connected == connected && this.accounts == accounts && this.chainId == chainId
    {
      this.connected := connected;
      this.accounts := accounts;
      this.chainId := chainId;
    }
  }

  /**
   * `IAppState`. `addressToBind` is `None` when it was taken from an empty
   * account list (JavaScript's `accounts[0]` is then `undefined`).
   */
  datatype AppState = AppState(
    connector: Option<Connector>,
    fetching: bool,
    connected: bool,
    chainId: int,
    showModal: bool,
    pendingRequest: bool,
    uri: string,
    accounts: seq<Address>,
    addressW3a: string,
    addressToBind: Option<Address>,
    result: Option<string>,
    assets: seq<Asset>)

  /** `INITIAL_STATE`: no connector, chain 1, no accounts, nothing fetched. */
  const INITIAL_STATE: AppState :=
    AppState(None, false, false, 1, false, false, "", [], "", Some(""), None, [])

  /** `payload.params[0]` of a transport event: the peer's accounts and chain. */
  datatype SessionParams = SessionParams(accounts: seq<Address>, chainId: int)

  /** A push event from the transport; `error` is the listener's error argument. */
  datatype Event =
    | SessionUpdate(error: bool, params: SessionParams)
    | Connect(error: bool, params: SessionParams)
    | Disconnect(error: bool)

  /** What the asset query service answered: the balances, or a rejection. */
  datatype FetchResult = Fetched(assets: seq<Asset>) | FetchFailed

  /** The (address, chain) pair an asset query is issued for. */
  datatype FetchRequest = FetchRequest(address: Option<Address>, chainId: int)

  /** A call the view makes into code outside this model. */
  datatype ExternalCall =
    | CreateSessionCall(connector: Connector)
    | KillSessionCall(connector: Connector)
    | AssetQuery(request: FetchRequest)

  /** `accounts[0]`, with `None` for JavaScript's `undefined` on an empty list. */
  function FirstAccount(accounts: seq<Address>): (r: Option<Address>)
    ensures r.Some? <==> |accounts| > 0
    ensures r.Some? ==> r.value == accounts[0]
  {
    if |accounts| == 0 then None else Some(accounts[0])
  }

  /**
   * The binding invariant the code can keep: a connected session's bound
   * address is the first account of its account list.
   */
  predicate Consistent(s: AppState)
  {
    s.connected ==> s.addressToBind == FirstAccount(s.accounts)
  }

  /** `setState({ ...state, connector })`. */
  function SetConnector(s: AppState, c: Connector): (r: AppState)
    ensures r.connector == Some(c)
    ensures r.(connector := s.connector) == s
    ensures Consistent(r) == Consistent(s)
  {
    s.(connector := Some(c))
  }

  /** The connected-state update of `onConnect` and of the subscribe-time check. */
  function MarkConnected(s: AppState, p: SessionParams): (r: AppState)
    ensures r.connected && r.chainId == p.chainId && r.accounts == p.accounts
    ensures r.addressToBind == FirstAccount(p.accounts)
    ensures Consistent(r)
    ensures r.(connected := s.connected, chainId := s.chainId, accounts := s.accounts,
               addressToBind := s.addressToBind) == s
  {
    s.(connected := true, chainId := p.chainId, accounts := p.accounts,
       addressToBind := FirstAccount(p.accounts))
  }

  /** The binding update of `onSessionUpdate`; `connected` is left as it was. */
  function UpdateBinding(s: AppState, p: SessionParams): (r: AppState)
    ensures r.connected == s.connected && r.chainId == p.chainId && r.accounts == p.accounts
    ensures r.addressToBind == FirstAccount(p.accounts)
    ensures Consistent(r)
    ensures r.(chainId := s.chainId, accounts := s.accounts, addressToBind := s.addressToBind) == s
  {
    s.(chainId := p.chainId, accounts := p.accounts, addressToBind := FirstAccount(p.accounts))
  }

  /** The pair `getAccountAssets` captures before it starts. */
  function RequestOf(s: AppState): FetchRequest
  {
    FetchRequest(s.addressToBind, s.chainId)
  }

  /** The first step of `getAccountAssets`: mark a fetch in flight. */
  function BeginFetch(s: AppState): (r: AppState)
    ensures r.fetching
    ensures r.(fetching := s.fetching) == s
    ensures RequestOf(r) == RequestOf(s)
  {
    s.(fetching := true)
  }

  /**
   * The last step of `getAccountAssets`, for the request captured at its start:
   * on success it writes the balances and the captured address back; on failure
   * it only clears the in-flight flag, keeping the earlier balances.
   */
  function EndFetch(s: AppState, req: FetchRequest, res: FetchResult): (r: AppState)
    ensures !r.fetching
    ensures r.assets == (if res.Fetched? then res.assets else s.assets)
    ensures r.addressToBind == (if res.Fetched? then req.address else s.addressToBind)
    ensures r.(fetching := s.fetching, assets := s.assets, addressToBind := s.addressToBind) == s
    ensures req == RequestOf(s) && Consistent(s) ==> Consistent(r)
  {
    match res
    case Fetched(assets) => s.(fetching := false, addressToBind := req.address, assets := assets)
    case FetchFailed => s.(fetching := false)
  }

  /**
   * `getAccountAssets` run to completion with nothing in between: the binding
   * (connection flag, chain, accounts, bound address) is what it was, the
   * balances are the answer or, on failure, the old ones.
   */
  function Fetch(s: AppState, res: FetchResult): (r: AppState)
    ensures r.connected == s.connected && r.chainId == s.chainId
    ensures r.accounts == s.accounts && r.addressToBind == s.addressToBind
    ensures !r.fetching
    ensures r.assets == (if res.Fetched? then res.assets else s.assets)
    ensures r.(fetching := s.fetching, assets := s.assets) == s
    ensures Consistent(r) == Consistent(s)
  {
    EndFetch(BeginFetch(s), RequestOf(s), res)
  }

  /**
   * What one transport event does to the record: `None` when the listener
   * throws on its error argument, otherwise the state the handler leaves.
   * `fetched` is the answer to the asset query the handler issues, if any.
   */
  function OnEvent(s: AppState, e: Event, fetched: FetchResult): (r: Option<AppState>)
    ensures r.None? <==> e.error
    ensures r.Some? ==> !r.value.fetching && Consistent(r.value)
    ensures r.Some? && e.Disconnect? ==> r.value == INITIAL_STATE
    ensures r.Some? && !e.Disconnect? ==>
      && r.value.connected == (e.Connect? || s.connected)
      && r.value.chainId == e.params.chainId
      && r.value.accounts == e.params.accounts
      && r.value.addressToBind == FirstAccount(e.params.accounts)
      && r.value.assets == (if fetched.Fetched? then fetched.assets else s.assets)
      && r.value.(connected := s.connected, chainId := s.chainId, accounts := s.accounts,
                  addressToBind := s.addressToBind, assets := s.assets,
                  fetching := s.fetching) == s
  {
    if e.error then None
    else
      match e
      case SessionUpdate(_, p) => Some(Fetch(UpdateBinding(s, p), fetched))
      case Connect(_, p) => Some(Fetch(MarkConnected(s, p), fetched))
      case Disconnect(_) => Some(INITIAL_STATE)
  }

  /**
   * The state part of `subscribeToEvents`, given what the connector reports
   * (`live`, `liveParams`) at that moment. Without a connector nothing happens;
   * with one that already reports a session, the record converges to the same
   * state as if the peer had just sent an error-free `connect`.
   */
  function Subscribe(s: AppState, live: bool, liveParams: SessionParams, fetched: FetchResult): (r: AppState)
    ensures s.connector.None? || !live ==> r == s
    ensures s.connector.Some? && live ==> Some(r) == OnEvent(s, Connect(false, liveParams), fetched)
  {
    if s.connector.None? then s
    else if live then Fetch(UpdateBinding(MarkConnected(s, liveParams), liveParams), fetched)
    else s
  }

  /**
   * The asset fetch keeps no generation: when a `session_update` lands while a
   * fetch is in flight and the fetch succeeds afterwards, the fetch writes the
   * address captured at its start over the newer one, and the connected record
   * no longer binds its own first account.
   */
  lemma LateFetchOverwritesNewerBinding(s: AppState, p: SessionParams, assets: seq<Asset>)
    requires s.connected && Consistent(s)
    requires FirstAccount(p.accounts) != s.addressToBind
    ensures var done := EndFetch(UpdateBinding(BeginFetch(s), p), RequestOf(s), Fetched(assets));
      && done.addressToBind == s.addressToBind
      && done.accounts == p.accounts
      && done.assets == assets
      && !Consistent(done)
  {
  }

  /**
   * The peer's account list is never checked: a `connect` that carries no
   * accounts leaves a connected session with no account and no bound address.
   */
  lemma ConnectWithoutAccounts(s: AppState, chainId: int, fetched: FetchResult)
    ensures var r := OnEvent(s, Connect(false, SessionParams([], chainId)), fetched);
      r.Some? && r.value.connected && r.value.accounts == [] && r.value.addressToBind == None
  {
  }
}
