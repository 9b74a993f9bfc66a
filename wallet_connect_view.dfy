/**
 * The wallet-pairing view's handlers. The view owns one mutable record,
 * `state`; each handler overwrites it step by step with the transitions of
 * module Session. `calls` records, in order, the requests the handlers make
 * of the transport and of the asset query service.
 */
module WalletConnectView {
  import opened Session

  class View {
    var state: AppState
    ghost var calls: seq<ExternalCall>

    /** Between handlers: no fetch in flight, and the binding is consistent. */
    ghost predicate Valid()
      reads this
    {
      Consistent(state) && !state.fetching
    }

    /** `useState({ ...INITIAL_STATE })`. */
    constructor ()
      ensures Valid()
      ensures state == INITIAL_STATE && calls == []
    {
      state := INITIAL_STATE;
      calls := [];
    }

    /** `resetApp`: back to the initial record, whatever it held. */
    method ResetApp()
      modifies this
      ensures Valid()
      ensures state == INITIAL_STATE && calls == old(calls)
    {
      state := INITIAL_STATE;
    }

    /**
     * `killSession`: asks the transport to end the session only when a
     * connector is held, then resets regardless.
     */
    method KillSession()
      modifies this
      ensures Valid()
      ensures state == INITIAL_STATE
      ensures old(state).connector.Some? ==> calls == old(calls) + [KillSessionCall(old(state).connector.value)]
      ensures old(state).connector.None? ==> calls == old(calls)
    {
      if state.connector.Some? {
        calls := calls + [KillSessionCall(state.connector.value)];
      }
      ResetApp();
    }

    /**
     * `getAccountAssets`: marks a fetch in flight, queries the balances of the
     * address and chain held at that moment, then writes the answer back.
     */
    method GetAccountAssets(fetched: FetchResult)
      requires Consistent(state)
      modifies this
      ensures Valid()
      ensures state == Fetch(old(state), fetched)
      ensures calls == old(calls) + [AssetQuery(FetchRequest(old(state).addressToBind, old(state).chainId))]
    {
      var request := RequestOf(state);
      state := BeginFetch(state);
      calls := calls + [AssetQuery(request)];
      state := EndFetch(state, request, fetched);
    }

    /** `onConnect`: the session is up; bind its first account and fetch. */
    method OnConnect(p: SessionParams, fetched: FetchResult)
      modifies this
      ensures Valid()
      ensures state == Fetch(MarkConnected(old(state), p), fetched)
      ensures calls == old(calls) + [AssetQuery(FetchRequest(FirstAccount(p.accounts), p.chainId))]
    {
      state := MarkConnected(state, p);
      GetAccountAssets(fetched);
    }

    /** `onDisconnect`: the peer ended the session; no transport call follows. */
    method OnDisconnect()
      modifies this
      ensures Valid()
      ensures state == INITIAL_STATE && calls == old(calls)
    {
      ResetApp();
    }

    /** `onSessionUpdate`: rebind to the new first account and chain, then fetch. */
    method OnSessionUpdate(p: SessionParams, fetched: FetchResult)
      modifies this
      ensures Valid()
      ensures state == Fetch(UpdateBinding(old(state), p), fetched)
      ensures calls == old(calls) + [AssetQuery(FetchRequest(FirstAccount(p.accounts), p.chainId))]
    {
      state := UpdateBinding(state, p);
      GetAccountAssets(fetched);
    }

    /**
     * The three listeners `subscribeToEvents` registers: each throws on its
     * error argument without touching the record, and otherwise hands the
     * event to its handler.
     */
    method HandleEvent(e: Event, fetched: FetchResult) returns (thrown: bool)
      requires Valid()
      modifies this
      ensures Valid()
      ensures thrown == e.error
      ensures thrown ==> state == old(state) && calls == old(calls)
      ensures !thrown ==> Some(state) == OnEvent(old(state), e, fetched)
      ensures !thrown && e.Disconnect? ==> calls == old(calls)
      ensures !thrown && !e.Disconnect? ==>
        calls == old(calls) + [AssetQuery(FetchRequest(FirstAccount(e.params.accounts), e.params.chainId))]
    {
      if e.error {
        return true;
      }
      thrown := false;
      match e
      case SessionUpdate(_, p) => OnSessionUpdate(p, fetched);
      case Connect(_, p) => OnConnect(p, fetched);
      case Disconnect(_) => OnDisconnect();
    }

    /**
     * `subscribeToEvents`, past the listener registration: without a
     * connector it does nothing; with one that already reports a session it
     * marks the record connected from the connector's accounts and chain and
     * then runs the session-update path.
     */
    method SubscribeToEvents(fetched: FetchResult)
      requires Valid()
      modifies this
      ensures Valid()
      ensures old(state).connector.None? ==> state == old(state) && calls == old(calls)
      ensures old(state).connector.Some? ==>
        var c := old(state).connector.value;
        && state == Subscribe(old(state), c.connected, SessionParams(c.accounts, c.chainId), fetched)
        && calls == old(calls) + (if c.connected then [AssetQuery(FetchRequest(FirstAccount(c.accounts), c.chainId))] else [])
    {
      if state.connector.None? {
        return;
      }
      var c := state.connector.value;
      if c.connected {
        var p := SessionParams(c.accounts, c.chainId);
        state := MarkConnected(state, p);
        OnSessionUpdate(p, fetched);
      }
    }

    /**
     * `connect`: builds a connector and holds it; if it came up already
     * connected the stale session is killed (ending in the initial record),
     * otherwise a new pairing is requested. Exactly one of the two happens,
     * and subscribing afterwards finds nothing to reconcile.
     * `restored`, `restoredAccounts` and `restoredChainId` are what the new
     * connector reports; `fetched` answers the query a reconciliation would make.
     */
    method Connect(restored: bool, restoredAccounts: seq<Address>, restoredChainId: int, fetched: FetchResult)
      returns (c: Connector)
      requires Valid()
      modifies this
      ensures fresh(c) && Valid()
      ensures !restored ==> state == SetConnector(old(state), c) && calls == old(calls) + [CreateSessionCall(c)]
      ensures restored ==> state == INITIAL_STATE && calls == old(calls) + [KillSessionCall(c)]
    {
      c := new Connector(restored, restoredAccounts, restoredChainId);
      state := SetConnector(state, c);
      if !c.connected {
        calls := calls + [CreateSessionCall(c)];
      } else {
        KillSession();
      }
      SubscribeToEvents(fetched);
    }
  }
}
