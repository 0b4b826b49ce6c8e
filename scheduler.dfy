/**
 * Frame-coalescing refresh scheduler (`scheduleChartsUpdate`).
 *
 * `rafId` is non-zero exactly while an animation-frame callback is queued,
 * so it is modelled as the flag `pending`. The browser's frame boundary is
 * the step that runs the queued callback: it clears the flag first and then
 * refreshes both charts against the page as it is at that moment.
 */
module Scheduler {
  import opened Charts

  /** The scheduler's observable state: the flag and how many refreshes have run. */
  datatype State = State(pending: bool, refreshes: nat)

  /** A request (`scheduleChartsUpdate()`) or an animation-frame boundary. */
  datatype Event = Request | Frame

  /** One event. A frame with no queued callback does nothing. */
  function Step(s: State, e: Event): (r: State)
    ensures e == Request ==> r.pending && r.refreshes == s.refreshes
    ensures e == Frame ==> !r.pending
    ensures r.refreshes == s.refreshes + 1 <==> e == Frame && s.pending
    ensures r.refreshes == s.refreshes || r.refreshes == s.refreshes + 1
  {
    match e
    case Request => if s.pending then s else s.(pending := true)
    case Frame => if s.pending then State(false, s.refreshes + 1) else s
  }

  /** A sequence of events, in order. */
  function Run(s: State, events: seq<Event>): State
    decreases |events|
  {
    if events == [] then s else Run(Step(s, events[0]), events[1..])
  }

  /** `n` consecutive requests. */
  function Requests(n: nat): (r: seq<Event>)
    ensures |r| == n && forall i :: 0 <= i < n ==> r[i] == Request
  {
    if n == 0 then [] else [Request] + Requests(n - 1)
  }

  function Count(events: seq<Event>, e: Event): nat {
    if events == [] then 0 else (if events[0] == e then 1 else 0) + Count(events[1..], e)
  }

  /** Run over a concatenation is the second run started where the first ended. */
  lemma {:induction false} RunAppend(s: State, xs: seq<Event>, ys: seq<Event>)
    ensures Run(s, xs + ys) == Run(Run(s, xs), ys)
    decreases |xs|
  {
    if xs == [] {
      assert xs + ys == ys;
    } else {
      assert (xs + ys)[1..] == xs[1..] + ys;
      RunAppend(Step(s, xs[0]), xs[1..], ys);
    }
  }

  /** While a refresh is pending, any number of further requests change nothing. */
  lemma {:induction false} RequestsWhilePending(s: State, n: nat)
    requires s.pending
    ensures Run(s, Requests(n)) == s
  {
    if n > 0 {
      RequestsWhilePending(s, n - 1);
    }
  }

  /**
   * Coalescing: from an idle scheduler, a burst of `n >= 1` requests
   * followed by one frame runs exactly one refresh and leaves the flag clear,
   * so the next request schedules again.
   */
  lemma Coalesce(s: State, n: nat)
    requires !s.pending && n >= 1
    ensures Run(s, Requests(n) + [Frame]) == State(false, s.refreshes + 1)
    ensures Step(Run(s, Requests(n) + [Frame]), Request).pending
  {
    RunAppend(s, Requests(n), [Frame]);
    var t := Step(s, Request);
    assert Requests(n) == [Request] + Requests(n - 1);
    RequestsWhilePending(t, n - 1);
  }

  /** Every refresh is paid for by a frame, and by a request (or a callback already queued). */
  lemma {:induction false} RefreshesBounded(s: State, events: seq<Event>)
    ensures Run(s, events).refreshes <= s.refreshes + Count(events, Frame)
    ensures Run(s, events).refreshes
      <= s.refreshes + Count(events, Request) + (if s.pending then 1 else 0)
    decreases |events|
  {
    if events != [] {
      RefreshesBounded(Step(s, events[0]), events[1..]);
    }
  }

  /** The scheduler wired to the page's chart presenter. */
  class FrameScheduler {
    var pending: bool
    ghost var refreshes: nat
    const presenter: ChartPresenter

    ghost function CurrentState(): State
      reads this
    {
      State(pending, refreshes)
    }

    constructor (presenter: ChartPresenter)
      ensures this.presenter == presenter
      ensures !pending && refreshes == 0
    {
      this.presenter := presenter;
      pending := false;
      refreshes := 0;
    }

    /** `scheduleChartsUpdate`: queue one frame callback unless one is already queued. */
    method RequestUpdate()
      modifies this
      ensures CurrentState() == Step(old(CurrentState()), Request)
    {
      if pending {
        return;
      }
      pending := true;
    }

    /** The monthly form's `input` listener: only events from an input element schedule. */
    method OnFormInput(targetIsInput: bool)
      modifies this
      ensures CurrentState()
        == if targetIsInput then Step(old(CurrentState()), Request) else old(CurrentState())
    {
      if !targetIsInput {
        return;
      }
      RequestUpdate();
    }

    /** The queued frame callback: clear the flag, then refresh both charts against `page`. */
    method Fire(page: Page)
      requires pending && presenter.Valid()
      modifies this, presenter
      ensures CurrentState() == Step(old(CurrentState()), Frame)
      ensures presenter.Valid()
      ensures presenter.bar == BarAfter(old(presenter.bar), page)
      ensures presenter.pie == PieAfter(old(presenter.pie), page)
      ensures presenter.pieConstructedWith
        == if old(presenter.pie).None? && presenter.pie.Some? then presenter.pie.value.datasets[0].data
           else old(presenter.pieConstructedWith)
    {
      pending := false;
      refreshes := refreshes + 1;
      presenter.Refresh(page);
    }
  }
}
