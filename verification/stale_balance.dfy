/**
 * A corrected balance fetch for the wallet store of
 * src/context/WalletContext.tsx.
 *
 * In the store as written, a fetch result is applied whenever it arrives,
 * so a fetch started before `disconnectWallet` leaves a disconnected
 * session holding a balance (`WalletContext.StaleFetchLandsAfterDisconnect`).
 * Here a result is applied only while the session is still connected with
 * the address and network the fetch was started for; every other event
 * behaves exactly as in `WalletContext.Step`.
 */
module StaleBalance {
  import opened Basics
  import opened WalletContext

  /** The session still is the one the fetch `p` was started for. */
  predicate StillCurrent(s: Session, p: Pending)
    requires !p.ConnectDelay?
  {
    s.isConnected && s.address == Some(p.address) && s.network == p.network
  }

  /**
   * Completion of the `i`-th pending fetch that drops a stale result. The
   * awaited fetch still ends its connectWallet call either way.
   */
  function FetchCompletedDropStale(w: World, i: nat): (r: World)
    ensures !(i < |w.pending| && !w.pending[i].ConnectDelay?) ==> r == w
    ensures i < |w.pending| && !w.pending[i].ConnectDelay? ==>
              && r.pending == Remove(w.pending, i)
              && r.slot == w.slot
              && r.session.isConnected == w.session.isConnected
              && r.session.address == w.session.address
              && r.session.network == w.session.network
              && r.session.connecting == (w.session.connecting && w.pending[i].Fetch?)
              && (StillCurrent(w.session, w.pending[i]) ==> r.session.balance == Some(MockBalance(w.pending[i].network)))
              && (!StillCurrent(w.session, w.pending[i]) ==> r.session.balance == w.session.balance)
  {
    if i < |w.pending| && !w.pending[i].ConnectDelay? then
      var p := w.pending[i];
      var applied := FetchCompleted(w, i);
      if StillCurrent(w.session, p) then applied
      else applied.(session := applied.session.(balance := w.session.balance))
    else w
  }

  function StepDropStale(w: World, e: Event): World {
    match e
    case FetchDone(i) => FetchCompletedDropStale(w, i)
    case _ => Step(w, e)
  }

  /** The invariant the store as written lacks: no balance while disconnected. */
  ghost predicate BalanceClearedWhileDisconnected(w: World) {
    !w.session.isConnected ==> w.session.balance.None?
  }

  lemma StepDropStalePreserves(w: World, e: Event)
    requires BalanceClearedWhileDisconnected(w)
    ensures BalanceClearedWhileDisconnected(StepDropStale(w, e))
  {
  }

  /** With stale results dropped, every reachable disconnected session has no balance. */
  lemma DropStaleKeepsBalanceCleared(slot: Option<Stored>, es: seq<Event>)
    ensures var w := RunSteps(StepDropStale, Startup(slot), es);
            !w.session.isConnected ==> w.session.balance.None?
  {
    forall t, e | BalanceClearedWhileDisconnected(t) ensures BalanceClearedWhileDisconnected(StepDropStale(t, e)) {
      StepDropStalePreserves(t, e);
    }
    RunKeeps(StepDropStale, t => BalanceClearedWhileDisconnected(t), Startup(slot), es);
  }

  /** The trace that leaves a balance behind in the store as written ends with none here. */
  lemma DropStaleAfterDisconnect()
    ensures var w1 := StepDropStale(Startup(None), Connect);
            var w2 := StepDropStale(w1, ConnectDelayDone(0, ZeroDigits, true));
            var w3 := StepDropStale(w2, Disconnect);
            var w4 := StepDropStale(w3, FetchDone(0));
            && !w4.session.isConnected
            && w4.session.balance.None?
            && !w4.session.connecting
  {
  }

  /** The world right after a connect on devnet and a switch to testnet, before either fetch lands. */
  lemma ConnectThenSwitchWorld(ds: AddressDigits)
    ensures var w3 := StepDropStale(StepDropStale(StepDropStale(Startup(None), Connect), ConnectDelayDone(0, ds, true)), Switch(Testnet, true));
            && w3.session.isConnected
            && w3.session.address == Some(MockAddress(ds))
            && w3.session.network == Testnet
            && w3.pending == [ConnectFetch(MockAddress(ds), Devnet), Fetch(MockAddress(ds), Testnet)]
  {
    var a := MockAddress(ds);
    var w1 := StepDropStale(Startup(None), Connect);
    assert w1.pending == [ConnectDelay(Devnet)];
    var w2 := StepDropStale(w1, ConnectDelayDone(0, ds, true));
    assert w2.pending == [ConnectFetch(a, Devnet)];
  }

  /** From that world, the fetches landing in the order they started leave the testnet balance. */
  lemma SwitchFetchesInOrder(w: World, a: string)
    requires w.session.isConnected && w.session.address == Some(a) && w.session.network == Testnet
    requires w.pending == [ConnectFetch(a, Devnet), Fetch(a, Testnet)]
    ensures StepDropStale(StepDropStale(w, FetchDone(0)), FetchDone(0)).session.balance == Some(500)
  {
    assert Remove(w.pending, 0) == [Fetch(a, Testnet)];
    var x1 := FetchCompletedDropStale(w, 0);
    assert x1.pending == [Fetch(a, Testnet)];
    assert StillCurrent(x1.session, x1.pending[0]);
  }

  /** From that world, the fetches landing in reverse order also leave the testnet balance. */
  lemma SwitchFetchesReversed(w: World, a: string)
    requires w.session.isConnected && w.session.address == Some(a) && w.session.network == Testnet
    requires w.pending == [ConnectFetch(a, Devnet), Fetch(a, Testnet)]
    ensures StepDropStale(StepDropStale(w, FetchDone(1)), FetchDone(0)).session.balance == Some(500)
  {
    assert Remove(w.pending, 1) == [ConnectFetch(a, Devnet)];
    var y1 := FetchCompletedDropStale(w, 1);
    assert y1.session.balance == Some(500);
    assert y1.pending == [ConnectFetch(a, Devnet)];
    assert !StillCurrent(y1.session, y1.pending[0]);
  }

  /**
   * Connect, then switch to testnet: whichever of the two fetches lands
   * last, the balance ends at the testnet value.
   */
  lemma DropStaleSwitchEitherOrder(ds: AddressDigits)
    ensures var w3 := StepDropStale(StepDropStale(StepDropStale(Startup(None), Connect), ConnectDelayDone(0, ds, true)), Switch(Testnet, true));
            && StepDropStale(StepDropStale(w3, FetchDone(0)), FetchDone(0)).session.balance == Some(500)
            && StepDropStale(StepDropStale(w3, FetchDone(1)), FetchDone(0)).session.balance == Some(500)
  {
    ConnectThenSwitchWorld(ds);
    var w3 := StepDropStale(StepDropStale(StepDropStale(Startup(None), Connect), ConnectDelayDone(0, ds, true)), Switch(Testnet, true));
    SwitchFetchesInOrder(w3, MockAddress(ds));
    SwitchFetchesReversed(w3, MockAddress(ds));
  }
}
