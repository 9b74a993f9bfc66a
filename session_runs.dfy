/**
 * Sequences of transport events delivered to the view one at a time, each
 * handled to completion before the next, and what the record looks like after
 * them.
 */
module SessionRuns {
  import opened Session

  /** An event as delivered, with the answer to the asset query its handler issues. */
  datatype Delivery = Delivery(event: Event, fetched: FetchResult)

  /** One delivery: a listener that throws leaves the record as it was. */
  function Apply(s: AppState, d: Delivery): AppState
  {
    match OnEvent(s, d.event, d.fetched)
    case None => s
    case Some(r) => r
  }

  /** The record after the deliveries `ds`, in order, starting from `s`. */
  function Run(s: AppState, ds: seq<Delivery>): AppState
    decreases |ds|
  {
    if ds == [] then s else Apply(Run(s, ds[..|ds| - 1]), ds[|ds| - 1])
  }

  /** The part of the record that says which wallet account is attached. */
  datatype Binding = Binding(connected: bool, chainId: int, accounts: seq<Address>, address: Option<Address>)

  function BindingOf(s: AppState): Binding
  {
    Binding(s.connected, s.chainId, s.accounts, s.addressToBind)
  }

  /**
   * The binding an event leaves behind, computed from the previous binding and
   * the event alone: asset queries and their answers play no part.
   */
  function Rebind(b: Binding, e: Event): Binding
  {
    if e.error then b
    else
      match e
      case SessionUpdate(_, p) => Binding(b.connected, p.chainId, p.accounts, FirstAccount(p.accounts))
      case Connect(_, p) => Binding(true, p.chainId, p.accounts, FirstAccount(p.accounts))
      case Disconnect(_) => BindingOf(INITIAL_STATE)
  }

  /** The binding after the events of `ds`, in order. */
  function ExpectedBinding(b: Binding, ds: seq<Delivery>): Binding
    decreases |ds|
  {
    if ds == [] then b else Rebind(ExpectedBinding(b, ds[..|ds| - 1]), ds[|ds| - 1].event)
  }

  /**
   * Whatever the asset queries answer, the binding after any run is the one
   * the events alone determine.
   */
  lemma {:induction false} RunFollowsEvents(s: AppState, ds: seq<Delivery>)
    ensures BindingOf(Run(s, ds)) == ExpectedBinding(BindingOf(s), ds)
    decreases |ds|
  {
    if ds != [] {
      RunFollowsEvents(s, ds[..|ds| - 1]);
    }
  }

  /**
   * Starting from a settled record, every run ends settled: no fetch in
   * flight, and a connected session binds its first account.
   */
  lemma {:induction false} RunStaysSettled(s: AppState, ds: seq<Delivery>)
    requires Consistent(s) && !s.fetching
    ensures Consistent(Run(s, ds)) && !Run(s, ds).fetching
    decreases |ds|
  {
    if ds != [] {
      RunStaysSettled(s, ds[..|ds| - 1]);
    }
  }

  /** Delivering one more event applies it to the record the run left. */
  lemma RunSnoc(s: AppState, ds: seq<Delivery>, d: Delivery)
    ensures Run(s, ds + [d]) == Apply(Run(s, ds), d)
  {
    assert (ds + [d])[..|ds|] == ds;
  }

  /** Running two batches one after the other is running their concatenation. */
  lemma {:induction false} RunConcat(s: AppState, ds: seq<Delivery>, es: seq<Delivery>)
    ensures Run(s, ds + es) == Run(Run(s, ds), es)
    decreases |es|
  {
    if es == [] {
      assert ds + es == ds;
    } else {
      var init, last := es[..|es| - 1], es[|es| - 1];
      assert es == init + [last];
      assert ds + es == (ds + init) + [last];
      RunSnoc(s, ds + init, last);
      RunConcat(s, ds, init);
      RunSnoc(Run(s, ds), init, last);
    }
  }

  /** Events whose error argument is set change nothing, however many arrive. */
  lemma {:induction false} ErroredEventsChangeNothing(s: AppState, ds: seq<Delivery>)
    requires forall i | 0 <= i < |ds| :: ds[i].event.error
    ensures Run(s, ds) == s
    decreases |ds|
  {
    if ds != [] {
      ErroredEventsChangeNothing(s, ds[..|ds| - 1]);
    }
  }

  /**
   * A peer-initiated disconnect ends in exactly the initial record, whatever
   * came before it.
   */
  lemma DisconnectClearsEverything(s: AppState, ds: seq<Delivery>, f: FetchResult)
    ensures Run(s, ds + [Delivery(Disconnect(false), f)]) == INITIAL_STATE
  {
    RunSnoc(s, ds, Delivery(Disconnect(false), f));
  }

  /**
   * After a `session_update` that is followed only by events that throw, the
   * bound address, account list and chain are the update's, whatever came
   * before it.
   */
  lemma LatestUpdateWins(s: AppState, ds: seq<Delivery>, p: SessionParams, f: FetchResult, es: seq<Delivery>)
    requires forall i | 0 <= i < |es| :: es[i].event.error
    ensures var r := Run(s, ds + [Delivery(SessionUpdate(false, p), f)] + es);
      r.addressToBind == FirstAccount(p.accounts) && r.chainId == p.chainId && r.accounts == p.accounts
  {
    var d := Delivery(SessionUpdate(false, p), f);
    RunConcat(s, ds + [d], es);
    ErroredEventsChangeNothing(Run(s, ds + [d]), es);
    RunSnoc(s, ds, d);
  }

  /**
   * The pairing walk-through: `connect` with ["0xAA"] on chain 1, then a
   * `session_update` to ["0xBB"] on chain 4, then `disconnect`.
   */
  lemma PairUpdateDisconnect(fa: FetchResult, fb: FetchResult, fc: FetchResult)
    ensures var afterConnect := Run(INITIAL_STATE, [Delivery(Connect(false, SessionParams(["0xAA"], 1)), fa)]);
      afterConnect.connected && afterConnect.addressToBind == Some("0xAA") && afterConnect.chainId == 1
    ensures var afterUpdate := Run(INITIAL_STATE, [Delivery(Connect(false, SessionParams(["0xAA"], 1)), fa),
                                                   Delivery(SessionUpdate(false, SessionParams(["0xBB"], 4)), fb)]);
      afterUpdate.connected && afterUpdate.addressToBind == Some("0xBB") && afterUpdate.chainId == 4
    ensures Run(INITIAL_STATE, [Delivery(Connect(false, SessionParams(["0xAA"], 1)), fa),
                                Delivery(SessionUpdate(false, SessionParams(["0xBB"], 4)), fb),
                                Delivery(Disconnect(false), fc)]) == INITIAL_STATE
  {
    var d1 := Delivery(Connect(false, SessionParams(["0xAA"], 1)), fa);
    var d2 := Delivery(SessionUpdate(false, SessionParams(["0xBB"], 4)), fb);
    var d3 := Delivery(Disconnect(false), fc);
    assert [d1] == [] + [d1];
    assert [d1, d2] == [d1] + [d2];
    assert [d1, d2, d3] == [d1, d2] + [d3];
    RunSnoc(INITIAL_STATE, [], d1);
    var s1 := Run(INITIAL_STATE, [d1]);
    assert s1.connected && s1.addressToBind == Some("0xAA") && s1.chainId == 1;
    RunSnoc(INITIAL_STATE, [d1], d2);
    var s2 := Run(INITIAL_STATE, [d1, d2]);
    assert s2 == Apply(s1, d2);
    assert s2.connected && s2.addressToBind == Some("0xBB") && s2.chainId == 4;
    DisconnectClearsEverything(INITIAL_STATE, [d1, d2], fc);
  }
}
