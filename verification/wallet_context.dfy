/**
 * The wallet session store of src/context/WalletContext.tsx.
 *
 * The store is a `Session` record (the five `useState` cells) plus the
 * `walletState` entry of local storage and the asynchronous continuations
 * still waiting on a timer. Each user action and each timer expiry is an
 * `Event`; `Step` applies one. A completion names the pending continuation
 * it resumes by index, so every order of completion can be explored, and
 * nothing ever cancels a pending continuation: WalletContext.tsx keeps no
 * timer handle and clears no timer.
 *
 * Randomness and storage failures are event parameters: the 40 digits
 * `Math.random` picks for a fresh address, and whether `localStorage.setItem`
 * succeeded.
 */
module WalletContext {
  import opened Basics

  datatype Network = Devnet | Testnet

  /** The five state cells the provider exposes. */
  datatype Session = Session(
    isConnected: bool,
    address: Option<string>,
    balance: Option<int>,
    network: Network,
    connecting: bool
  )

  /** The state every mount starts from, before the restore effect runs. */
  const InitialSession: Session := Session(false, None, None, Devnet, false)

  /**
   * The object `JSON.parse` yields for the `walletState` entry. An address that
   * is missing or falsy is the empty string; a missing or falsy network is None.
   */
  datatype Snapshot = Snapshot(address: string, network: Option<Network>)

  /** What the `walletState` entry can hold when it exists. */
  datatype Stored =
    | Blank                       // the empty string: falsy, so restore skips it
    | Unparseable                 // `JSON.parse` throws, or yields no object to destructure
    | Record(snapshot: Snapshot)  // a parsed object

  /** The entry as `localStorage.setItem('walletState', JSON.stringify({address, network}))` leaves it. */
  function Written(address: string, network: Network): Option<Stored> {
    Some(Record(Snapshot(address, Some(network))))
  }

  /** A stored entry from which a reload would restore a connection. */
  predicate Restorable(slot: Option<Stored>) {
    slot.Some? && slot.value.Record? && slot.value.snapshot.address != ""
  }

  /** A continuation waiting on a timer. */
  datatype Pending =
    | ConnectDelay(network: Network)                   // connectWallet's 1500 ms wait; the network its closure saw
    | ConnectFetch(address: string, network: Network)  // the balance fetch connectWallet awaits
    | Fetch(address: string, network: Network)         // a balance fetch nobody awaits
  {
    /** A continuation that belongs to a connectWallet call. */
    predicate IsConnectStep() {
      ConnectDelay? || ConnectFetch?
    }
  }

  datatype World = World(session: Session, slot: Option<Stored>, pending: seq<Pending>)

  // ---------------------------------------------------------------------
  // Mock values
  // ---------------------------------------------------------------------

  /** Number of random hexadecimal digits in a generated address. */
  const AddressDigitCount: nat := 40

  /** One draw of the 40 digits `connectWallet` generates. */
  type AddressDigits = ds: seq<HexDigit> | |ds| == AddressDigitCount witness seq(40, _ => 0)

  /** The format of a generated address: `0x` and 40 lower-case hexadecimal digits. */
  predicate IsMockAddress(a: string) {
    && |a| == 2 + AddressDigitCount
    && a[..2] == "0x"
    && forall i :: 2 <= i < |a| ==> IsHexChar(a[i])
  }

  /** The address `connectWallet` builds from its random digits. */
  function MockAddress(ds: AddressDigits): (a: string)
    ensures IsMockAddress(a)
  {
    "0x" + HexString(ds)
  }

  /** Recovers the digits of a generated address; None for anything else. */
  function ParseMockAddress(a: string): (r: Option<AddressDigits>)
    ensures r.Some? <==> IsMockAddress(a)
  {
    if |a| == 2 + AddressDigitCount && a[..2] == "0x" then
      match ParseHex(a[2..])
      case Some(ds) => Some(ds)
      case None =>
        var k :| 0 <= k < |a[2..]| && !IsHexChar(a[2..][k]);
        assert !IsHexChar(a[k + 2]);
        None
    else None
  }

  /** Every generated address is recognised, with the digits it was built from. */
  lemma MockAddressRoundTrip(ds: AddressDigits)
    ensures ParseMockAddress(MockAddress(ds)) == Some(ds)
  {
    var a := MockAddress(ds);
    assert a[2..] == HexString(ds);
    HexStringRoundTrip(ds);
  }

  /** Every recognised address is the one built from the digits recovered. */
  lemma ParseMockAddressRoundTrip(a: string)
    requires IsMockAddress(a)
    ensures MockAddress(ParseMockAddress(a).value) == a
  {
    ParseHexRoundTrip(a[2..]);
    assert a == a[..2] + a[2..];
  }

  /** The balance the mock fetch reports for a network. */
  function MockBalance(n: Network): int {
    if n == Devnet then 1000 else 500
  }

  // ---------------------------------------------------------------------
  // Counting connectWallet calls in flight
  // ---------------------------------------------------------------------

  function ConnectsInFlight(ps: seq<Pending>): nat {
    if ps == [] then 0
    else (if ps[0].IsConnectStep() then 1 else 0) + ConnectsInFlight(ps[1..])
  }

  lemma {:induction false} ConnectsInFlightAppend(ps: seq<Pending>, qs: seq<Pending>)
    ensures ConnectsInFlight(ps + qs) == ConnectsInFlight(ps) + ConnectsInFlight(qs)
  {
    if ps != [] {
      assert (ps + qs)[0] == ps[0];
      assert (ps + qs)[1..] == ps[1..] + qs;
      ConnectsInFlightAppend(ps[1..], qs);
    } else {
      assert ps + qs == qs;
    }
  }

  lemma {:induction false} ConnectsInFlightRemove(ps: seq<Pending>, i: nat)
    requires i < |ps|
    ensures ConnectsInFlight(Remove(ps, i)) + (if ps[i].IsConnectStep() then 1 else 0) == ConnectsInFlight(ps)
  {
    if i == 0 {
      assert Remove(ps, 0) == ps[1..];
    } else {
      var r := Remove(ps, i);
      assert r[0] == ps[0];
      assert r[1..] == Remove(ps[1..], i - 1);
      ConnectsInFlightRemove(ps[1..], i - 1);
    }
  }

  // ---------------------------------------------------------------------
  // Startup restore
  // ---------------------------------------------------------------------

  /**
   * A mount: the initial session, then the restore effect reading the entry
   * `slot`. A truthy stored address restores a connection and starts an
   * unawaited balance fetch; an entry that does not parse is removed.
   */
  function Startup(slot: Option<Stored>): (w: World)
    ensures (slot.None? || slot.value.Blank?) ==> w == World(InitialSession, slot, [])
    ensures slot == Some(Unparseable) ==> w == World(InitialSession, None, [])
    ensures slot.Some? && slot.value.Record? && slot.value.snapshot.address == "" ==>
              w == World(InitialSession, slot, [])
    ensures Restorable(slot) ==>
              var a := slot.value.snapshot.address;
              var n := slot.value.snapshot.network.GetOr(Devnet);
              && w.session == InitialSession.(isConnected := true, address := Some(a), network := n)
              && w.slot == slot
              && w.pending == [Fetch(a, n)]
  {
    match slot
    case None => World(InitialSession, slot, [])
    case Some(Blank) => World(InitialSession, slot, [])
    case Some(Unparseable) => World(InitialSession, None, [])
    case Some(Record(Snapshot(a, n))) =>
      if a == "" then World(InitialSession, slot, [])
      else
        var net := n.GetOr(Devnet);
        World(InitialSession.(isConnected := true, address := Some(a), network := net), slot, [Fetch(a, net)])
  }

  // ---------------------------------------------------------------------
  // Operations
  // ---------------------------------------------------------------------

  /**
   * `connectWallet` up to its first `await`: sets `connecting` and starts
   * the connection delay. Nothing stops a second call while one is in flight.
   */
  function ConnectWallet(w: World): (r: World)
    ensures r.session.connecting
    ensures r.session == w.session.(connecting := true)
    ensures r.slot == w.slot
    ensures r.pending == w.pending + [ConnectDelay(w.session.network)]
    ensures ConnectsInFlight(r.pending) == ConnectsInFlight(w.pending) + 1
  {
    ConnectsInFlightAppend(w.pending, [ConnectDelay(w.session.network)]);
    World(w.session.(connecting := true), w.slot, w.pending + [ConnectDelay(w.session.network)])
  }

  /**
   * The connection delay of the `i`-th pending continuation elapses: a fresh
   * address from `digits` is set and the session is connected; then the
   * snapshot is written. When the write succeeds connectWallet goes on to
   * await a balance fetch; when it throws, the catch and finally blocks end
   * the call with the session still connected, nothing written and no fetch.
   */
  function ConnectDelayElapsed(w: World, i: nat, digits: AddressDigits, writeOk: bool): (r: World)
    ensures !(i < |w.pending| && w.pending[i].ConnectDelay?) ==> r == w
    ensures i < |w.pending| && w.pending[i].ConnectDelay? ==>
              var n := w.pending[i].network;
              var a := MockAddress(digits);
              && IsMockAddress(a)
              && r.session.isConnected
              && r.session.address == Some(a)
              && r.session.balance == w.session.balance
              && r.session.network == w.session.network
              && (writeOk ==>
                    && r.slot == Written(a, n)
                    && r.session.connecting == w.session.connecting
                    && r.pending == Remove(w.pending, i) + [ConnectFetch(a, n)]
                    && ConnectsInFlight(r.pending) == ConnectsInFlight(w.pending))
              && (!writeOk ==>
                    && r.slot == w.slot
                    && !r.session.connecting
                    && r.pending == Remove(w.pending, i)
                    && ConnectsInFlight(r.pending) + 1 == ConnectsInFlight(w.pending))
  {
    if i < |w.pending| && w.pending[i].ConnectDelay? then
      var n := w.pending[i].network;
      var a := MockAddress(digits);
      var s := w.session.(isConnected := true, address := Some(a));
      ConnectsInFlightRemove(w.pending, i);
      if writeOk then
        ConnectsInFlightAppend(Remove(w.pending, i), [ConnectFetch(a, n)]);
        World(s, Written(a, n), Remove(w.pending, i) + [ConnectFetch(a, n)])
      else
        World(s.(connecting := false), w.slot, Remove(w.pending, i))
    else w
  }

  /**
   * The `i`-th pending balance fetch completes: the balance becomes the mock
   * value of the network the fetch was issued for, whatever the address and
   * whatever the session looks like now. The fetch connectWallet awaits also
   * ends that call, clearing `connecting`.
   */
  function FetchCompleted(w: World, i: nat): (r: World)
    ensures !(i < |w.pending| && !w.pending[i].ConnectDelay?) ==> r == w
    ensures i < |w.pending| && !w.pending[i].ConnectDelay? ==>
              && r.session.balance == Some(MockBalance(w.pending[i].network))
              && r.session.isConnected == w.session.isConnected
              && r.session.address == w.session.address
              && r.session.network == w.session.network
              && r.session.connecting == (w.session.connecting && w.pending[i].Fetch?)
              && r.slot == w.slot
              && r.pending == Remove(w.pending, i)
  {
    if i < |w.pending| && !w.pending[i].ConnectDelay? then
      var p := w.pending[i];
      var s := w.session.(balance := Some(MockBalance(p.network)));
      World(if p.ConnectFetch? then s.(connecting := false) else s, w.slot, Remove(w.pending, i))
    else w
  }

  /** `disconnectWallet`: clears the connection and the stored entry; nothing pending is cancelled. */
  function DisconnectWallet(w: World): (r: World)
    ensures !r.session.isConnected && r.session.address.None? && r.session.balance.None?
    ensures r.slot.None?
    ensures r.session.network == w.session.network
    ensures r.session.connecting == w.session.connecting
    ensures r.pending == w.pending
  {
    World(w.session.(isConnected := false, address := None, balance := None), None, w.pending)
  }

  /** The condition `isConnected && address` under which switchNetwork persists and refetches. */
  predicate LiveAddress(s: Session) {
    s.isConnected && s.address.Some? && s.address.value != ""
  }

  /**
   * `switchNetwork(target)`: the network is always set. With a live
   * connection the entry is rewritten with the new network and a fetch for
   * it is started; a throwing write skips the fetch.
   */
  function SwitchNetwork(w: World, target: Network, writeOk: bool): (r: World)
    ensures r.session == w.session.(network := target)
    ensures !LiveAddress(w.session) ==> r.slot == w.slot && r.pending == w.pending
    ensures LiveAddress(w.session) && writeOk ==>
              && r.slot == Written(w.session.address.value, target)
              && r.pending == w.pending + [Fetch(w.session.address.value, target)]
    ensures LiveAddress(w.session) && !writeOk ==> r.slot == w.slot && r.pending == w.pending
    ensures ConnectsInFlight(r.pending) == ConnectsInFlight(w.pending)
  {
    var s := w.session.(network := target);
    if LiveAddress(w.session) && writeOk then
      var a := w.session.address.value;
      ConnectsInFlightAppend(w.pending, [Fetch(a, target)]);
      World(s, Written(a, target), w.pending + [Fetch(a, target)])
    else World(s, w.slot, w.pending)
  }

  // ---------------------------------------------------------------------
  // Events and runs
  // ---------------------------------------------------------------------

  datatype Event =
    | Connect
    | Disconnect
    | Switch(target: Network, writeOk: bool)
    | ConnectDelayDone(index: nat, digits: AddressDigits, writeOk: bool)
    | FetchDone(index: nat)

  function Step(w: World, e: Event): World {
    match e
    case Connect => ConnectWallet(w)
    case Disconnect => DisconnectWallet(w)
    case Switch(n, ok) => SwitchNetwork(w, n, ok)
    case ConnectDelayDone(i, ds, ok) => ConnectDelayElapsed(w, i, ds, ok)
    case FetchDone(i) => FetchCompleted(w, i)
  }

  // ---------------------------------------------------------------------
  // What every reachable world satisfies
  // ---------------------------------------------------------------------

  /**
   * The facts the code maintains: connected exactly when an address is set,
   * and that address is truthy; a balance is only ever a mock value;
   * `connecting` is only set while some connectWallet call is in flight; and
   * an entry a reload would restore exists only while connected.
   */
  ghost predicate Inv(w: World) {
    && (w.session.isConnected <==> w.session.address.Some?)
    && (w.session.address.Some? ==> w.session.address.value != "")
    && w.session.balance in {None, Some(MockBalance(Devnet)), Some(MockBalance(Testnet))}
    && (w.session.connecting ==> ConnectsInFlight(w.pending) > 0)
    && (Restorable(w.slot) ==> w.session.isConnected)
  }

  lemma StartupEstablishesInv(slot: Option<Stored>)
    ensures Inv(Startup(slot))
  {
  }

  lemma StepPreservesInv(w: World, e: Event)
    requires Inv(w)
    ensures Inv(Step(w, e))
  {
    match e
    case FetchDone(i) =>
      if i < |w.pending| && !w.pending[i].ConnectDelay? {
        ConnectsInFlightRemove(w.pending, i);
      }
    case _ =>
  }

  /**
   * After any mount and any sequence of actions and completions, connected
   * holds exactly when an address is set, a restorable entry implies a
   * connection, and `connecting` implies a connectWallet call in flight.
   */
  lemma ReachableInv(slot: Option<Stored>, es: seq<Event>)
    ensures var w := RunSteps(Step, Startup(slot), es);
            && (w.session.isConnected <==> w.session.address.Some?)
            && (w.session.address.Some? ==> w.session.address.value != "")
            && w.session.balance in {None, Some(1000), Some(500)}
            && (w.session.connecting ==> ConnectsInFlight(w.pending) > 0)
            && (Restorable(w.slot) ==> w.session.isConnected)
  {
    StartupEstablishesInv(slot);
    forall t, e | Inv(t) ensures Inv(Step(t, e)) {
      StepPreservesInv(t, e);
    }
    RunKeeps(Step, t => Inv(t), Startup(slot), es);
  }

  /** A snapshot written for a live connection restores that address and network on the next mount. */
  lemma WrittenSnapshotRestores(a: string, n: Network)
    requires a != ""
    ensures var w := Startup(Written(a, n));
            && w.session.isConnected
            && w.session.address == Some(a)
            && w.session.network == n
            && w.pending == [Fetch(a, n)]
  {
  }

  // ---------------------------------------------------------------------
  // Traces the code allows
  // ---------------------------------------------------------------------

  /** An address built from 40 zero digits, for the traces below. */
  const ZeroDigits: AddressDigits := seq(40, _ => 0)

  /**
   * A fetch started before `disconnectWallet` still lands afterwards: the
   * session ends disconnected yet holding a balance.
   */
  lemma StaleFetchLandsAfterDisconnect()
    ensures var w1 := Step(Startup(None), Connect);
            var w2 := Step(w1, ConnectDelayDone(0, ZeroDigits, true));
            var w3 := Step(w2, Disconnect);
            var w4 := Step(w3, FetchDone(0));
            && !w4.session.isConnected
            && w4.session.address.None?
            && w4.session.balance == Some(1000)
            && w4.slot.None?
  {
  }

  /**
   * connectWallet is re-entrant: a second call while the first is in
   * flight is accepted, and when the first call finishes it clears
   * `connecting` although the second is still running.
   */
  lemma ConnectIsReentrant()
    ensures var w1 := Step(Startup(None), Connect);
            var w2 := Step(w1, Connect);
            var w3 := Step(w2, ConnectDelayDone(0, ZeroDigits, true));
            var w4 := Step(w3, FetchDone(1));
            && w2.session.connecting && ConnectsInFlight(w2.pending) == 2
            && !w4.session.connecting && ConnectsInFlight(w4.pending) == 1
  {
  }

  /**
   * Connect, then switch to testnet as soon as the session is connected,
   * with the fetches completing in the order they were started: the entry
   * holds the connected address with testnet, and the balance ends at the
   * testnet value.
   */
  lemma ConnectThenSwitchToTestnet(ds: AddressDigits)
    ensures var w1 := Step(Startup(None), Connect);
            var w2 := Step(w1, ConnectDelayDone(0, ds, true));
            var w3 := Step(w2, Switch(Testnet, true));
            var w4 := Step(w3, FetchDone(0));
            var w5 := Step(w4, FetchDone(0));
            && w5.session.isConnected
            && w5.session.address == Some(MockAddress(ds))
            && w5.slot == Written(MockAddress(ds), Testnet)
            && w5.session.network == Testnet
            && w5.session.balance == Some(500)
            && !w5.session.connecting
            && w5.pending == []
  {
  }
}
