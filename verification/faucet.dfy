/**
 * The token request workflow of src/pages/Faucet.tsx.
 *
 * The page keeps `requesting`, `progress`, `lastRequestTime` and the
 * request history (newest first). A request run is: the click, ten firings
 * of the 150 ms interval each adding 10, then the 500 ms settle timeout
 * that records one completed 100-SUI request. `timer` says which of the two
 * timers is live. The settle callback reads the clock twice, once through
 * `new Date()` for the record's timestamp and once through `Date.now()` for
 * its id; both readings are event parameters, and nothing ties them to each
 * other. Whether the wallet is connected is read at each click.
 */
module Faucet {
  import opened Basics

  datatype Status = Completed | Processing | Failed

  datatype Request = Request(id: string, amount: int, timestamp: nat, status: Status)

  /** The timer a run is waiting on, if any. */
  datatype Timer = Idle | Ticking | Settling

  datatype Page = Page(
    requesting: bool,
    progress: int,
    lastRequestTime: Option<nat>,
    history: seq<Request>,
    timer: Timer
  )

  const InitialPage: Page := Page(false, 0, None, [], Idle)

  /** Tokens granted per request. */
  const RequestAmount: int := 100

  /** What one interval firing adds to the progress. */
  const ProgressStep: int := 10

  /** Interval firings in one run. */
  const TicksPerRun: nat := 10

  /** The request button is rendered on the connected page, and only while no run is in progress. */
  predicate TriggerShown(p: Page, connected: bool) {
    connected && !p.requesting
  }

  /**
   * A click on the request button. A hidden button cannot be clicked;
   * handleRequestTokens itself returns at once when the wallet is not connected.
   */
  function PressRequest(p: Page, connected: bool): (r: Page)
    ensures !TriggerShown(p, connected) ==> r == p
    ensures TriggerShown(p, connected) ==>
              && r.requesting
              && r.progress == 0
              && r.timer == Ticking
              && r.history == p.history
              && r.lastRequestTime == p.lastRequestTime
  {
    if !TriggerShown(p, connected) then p
    else p.(requesting := true, progress := 0, timer := Ticking)
  }

  /** One firing of the interval: add the step; from 100 on the interval is cleared and the settle timeout set. */
  function Tick(p: Page): (r: Page)
    ensures p.timer != Ticking ==> r == p
    ensures p.timer == Ticking ==>
              && r.progress == p.progress + ProgressStep
              && (r.timer == Settling <==> r.progress >= 100)
              && (r.timer == Ticking <==> r.progress < 100)
              && r.requesting == p.requesting
              && r.history == p.history
              && r.lastRequestTime == p.lastRequestTime
  {
    if p.timer != Ticking then p
    else
      var next := p.progress + ProgressStep;
      p.(progress := next, timer := if next >= 100 then Settling else Ticking)
  }

  /**
   * The record a settle adds: stamped with the `new Date()` reading `now`;
   * its id is `req-` and the separate `Date.now()` reading `idNow` in decimal.
   */
  function NewRequest(now: nat, idNow: nat): (q: Request)
    ensures q.amount == RequestAmount && q.status == Completed && q.timestamp == now
    ensures |q.id| > 4 && q.id[..4] == "req-"
  {
    Request("req-" + Decimal(idNow), RequestAmount, now, Completed)
  }

  /**
   * The part of a request id after `req-` is decimal digits that read back as
   * the clock reading taken for the id, whatever the timestamp reading was.
   */
  lemma RequestIdEncodesClock(now: nat, idNow: nat)
    ensures var q := NewRequest(now, idNow);
            && (forall i :: 4 <= i < |q.id| ==> IsDecimalChar(q.id[i]))
            && DecimalValue(q.id[4..]) == idNow
            && q.timestamp == now
  {
    var q := NewRequest(now, idNow);
    assert q.id[4..] == Decimal(idNow);
    DecimalRoundTrip(idNow);
  }

  /** The settle timeout: the run ends and exactly one completed request is put in front of the history. */
  function Settle(p: Page, now: nat, idNow: nat): (r: Page)
    ensures p.timer != Settling ==> r == p
    ensures p.timer == Settling ==>
              && !r.requesting
              && r.timer == Idle
              && |r.history| == |p.history| + 1
              && r.history[1..] == p.history
              && r.history[0].amount == RequestAmount
              && r.history[0].status == Completed
              && r.history[0].timestamp == now
              && r.lastRequestTime == Some(r.history[0].timestamp)
              && r.progress == p.progress
  {
    if p.timer != Settling then p
    else
      var q := NewRequest(now, idNow);
      p.(requesting := false, lastRequestTime := Some(now), history := [q] + p.history, timer := Idle)
  }

  datatype Event = Press(connected: bool) | IntervalFired | TimeoutFired(now: nat, idNow: nat)

  function Step(p: Page, e: Event): Page {
    match e
    case Press(c) => PressRequest(p, c)
    case IntervalFired => Tick(p)
    case TimeoutFired(now, idNow) => Settle(p, now, idNow)
  }

  /** `n` firings of the interval in a row. */
  function Ticks(p: Page, n: nat): Page
    decreases n
  {
    if n == 0 then p else Ticks(Tick(p), n - 1)
  }

  // ---------------------------------------------------------------------
  // Properties
  // ---------------------------------------------------------------------

  /**
   * What every reachable page satisfies: a run is in progress exactly while a
   * timer is live; progress is a multiple of ten within [0, 100], below 100
   * while ticking and exactly 100 while settling; every history entry is a
   * completed 100-SUI request, and the last request time is the newest one's.
   */
  ghost predicate Inv(p: Page) {
    && (p.requesting <==> p.timer != Idle)
    && 0 <= p.progress <= 100
    && p.progress % ProgressStep == 0
    && (p.timer == Ticking ==> p.progress < 100)
    && (p.timer == Settling ==> p.progress == 100)
    && (forall k :: 0 <= k < |p.history| ==>
          p.history[k].amount == RequestAmount && p.history[k].status == Completed)
    && (p.lastRequestTime.None? <==> p.history == [])
    && (p.lastRequestTime.Some? ==> p.lastRequestTime.value == p.history[0].timestamp)
  }

  lemma StepPreservesInv(p: Page, e: Event)
    requires Inv(p)
    ensures Inv(Step(p, e))
  {
    if e.TimeoutFired? && p.timer == Settling {
      var r := Step(p, e);
      forall k | 0 <= k < |r.history|
        ensures r.history[k].amount == RequestAmount && r.history[k].status == Completed
      {
        if k > 0 {
          assert r.history[k] == p.history[k - 1];
        }
      }
    }
  }

  /** From a fresh page, any sequence of clicks and timer firings keeps the progress in [0, 100] and the history well formed. */
  lemma ReachableInv(es: seq<Event>)
    ensures var p := RunSteps(Step, InitialPage, es);
            && (p.requesting <==> p.timer != Idle)
            && 0 <= p.progress <= 100
            && p.progress % 10 == 0
            && forall k :: 0 <= k < |p.history| ==>
                 p.history[k].amount == 100 && p.history[k].status == Completed
  {
    forall t, e | Inv(t) ensures Inv(Step(t, e)) {
      StepPreservesInv(t, e);
    }
    RunKeeps(Step, t => Inv(t), InitialPage, es);
  }

  /** A click while a run is in progress changes nothing: runs never overlap. */
  lemma NoOverlappingRuns(p: Page, connected: bool)
    requires p.requesting
    ensures Step(p, Press(connected)) == p
  {
  }

  /** After `k` firings of a fresh run the progress is 10k, capped at ten firings; the tenth hands over to the settle timeout. */
  lemma {:induction false} TicksFromStart(p: Page, k: nat)
    requires p.timer == Ticking && p.progress == 0
    ensures var q := Ticks(p, k);
            && q.progress == ProgressStep * (if k < TicksPerRun then k else TicksPerRun)
            && (q.timer == Ticking <==> k < TicksPerRun)
            && (q.timer == Settling <==> k >= TicksPerRun)
            && q.history == p.history
            && q.requesting == p.requesting
  {
    TicksFrom(p, 0, k);
  }

  lemma {:induction false} TicksFrom(p: Page, j: nat, k: nat)
    requires j <= TicksPerRun
    requires p.progress == ProgressStep * j
    requires p.timer == (if j < TicksPerRun then Ticking else Settling)
    ensures var q := Ticks(p, k);
            var m := if j + k < TicksPerRun then j + k else TicksPerRun;
            && q.progress == ProgressStep * m
            && q.timer == (if m < TicksPerRun then Ticking else Settling)
            && q.history == p.history
            && q.requesting == p.requesting
            && q.lastRequestTime == p.lastRequestTime
    decreases k
  {
    if k > 0 {
      if j < TicksPerRun {
        TicksFrom(Tick(p), j + 1, k - 1);
      } else {
        TicksFrom(Tick(p), j, k - 1);
      }
    }
  }

  /**
   * A whole run on the connected page: click, ten interval firings and the
   * settle timeout prepend exactly one completed 100-SUI request stamped
   * with the settle time; the earlier history is its tail.
   */
  lemma FullRun(p: Page, now: nat, idNow: nat)
    requires !p.requesting
    ensures var r := Settle(Ticks(PressRequest(p, true), TicksPerRun), now, idNow);
            && !r.requesting
            && r.progress == 100
            && r.history == [NewRequest(now, idNow)] + p.history
            && r.lastRequestTime == Some(now)
  {
    TicksFromStart(PressRequest(p, true), TicksPerRun);
  }
}
