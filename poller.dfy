/** The forecast poller (server.py `fetch_forecast` and `poll_fetcher`): what
    one fetch does to the shared "last fetch response", and the whole polling
    loop as a trace of fetch outcomes. Two name-resolution failures in a row
    end the poller with exit status 1. */
module Poller {
  import opened Py
  import opened Clock

  /** An exception raised by `fetcher.fetch()`: a name-resolution failure
      (`socket.gaierror`) or any other exception, with the text `str()` of
      the exception gives. */
  datatype FetchError = Dns(message: string) | Other(message: string)

  /** What one call of `fetcher.fetch()` did: returned a decoded document or
      raised. */
  datatype FetchOutcome = Fetched(doc: Json) | Failed(error: FetchError)

  /** `ctx.last_fetch_response`: the last document fetched or the last
      exception caught. */
  datatype Stored = Doc(doc: Json) | Error(error: FetchError)

  /** The context starts out holding an empty document. */
  const Initial: Stored := Doc(JObj(map[]))

  predicate IsDnsError(s: Stored)
  {
    s.Error? && s.error.Dns?
  }

  predicate IsDnsFailure(o: FetchOutcome)
  {
    o.Failed? && o.error.Dns?
  }

  /** The value a fetch outcome leaves in `last_fetch_response` when it is
      recorded. */
  function StoredOf(o: FetchOutcome): (s: Stored)
    ensures IsDnsError(s) <==> IsDnsFailure(o)
    ensures s.Doc? <==> o.Fetched?
  {
    match o
    case Fetched(doc) => Doc(doc)
    case Failed(e) => Error(e)
  }

  /** What `fetch_forecast` does with one outcome: record it, or raise
      `SystemExit` with a status. */
  datatype FetchStep = Recorded(stored: Stored) | Exit(status: int)

  /** `fetch_forecast`'s decision. A document or a first failure is
      recorded; a DNS failure while a DNS error is stored exits with status
      1 and records nothing. */
  function FetchTransition(prev: Stored, outcome: FetchOutcome): (step: FetchStep)
    ensures step.Exit? <==> IsDnsError(prev) && IsDnsFailure(outcome)
    ensures step.Exit? ==> step.status == 1
    ensures step.Recorded? ==> step.stored == StoredOf(outcome)
  {
    match outcome
    case Fetched(doc) => Recorded(Doc(doc))
    case Failed(e) => if IsDnsError(prev) && e.Dns? then Exit(1) else Recorded(Error(e))
  }

  /** The state `fetch_forecast` works on: the stored response and
      `last_fetched_at`. */
  datatype PollState = PollState(stored: Stored, fetchedAt: Option<Instant>)

  /** The state of a freshly built context. */
  const Start: PollState := PollState(Initial, None)

  /** One fetch of the poller: its outcome and the clock reading taken after
      it. */
  datatype Tick = Tick(outcome: FetchOutcome, at: Instant)

  /** How a run of the poller over a trace ends: every tick recorded, or
      `SystemExit` at tick `at`, leaving the state from before that tick. */
  datatype PollRun = Completed(state: PollState) | Exited(status: int, at: nat, state: PollState)

  /** One call of `fetch_forecast` on a poll state. */
  function Fetch(s: PollState, t: Tick): (r: PollRun)
    ensures r.Exited? ==> r.state == s && r.at == 0
  {
    match FetchTransition(s.stored, t.outcome)
    case Exit(status) => Exited(status, 0, s)
    case Recorded(stored) => Completed(PollState(stored, Some(t.at)))
  }

  /** The poller over a trace of fetches, stopping at the first exit. */
  function Run(s: PollState, ticks: seq<Tick>): PollRun
    decreases |ticks|
  {
    if ticks == [] then Completed(s)
    else
      match Fetch(s, ticks[0])
      case Exited(status, _, _) => Exited(status, 0, s)
      case Completed(next) =>
        var rest := Run(next, ticks[1..]);
        if rest.Exited? then rest.(at := rest.at + 1) else rest
  }

  /** Tick `i` is a DNS failure that directly follows another one (or, for
      the first tick, a stored DNS error). */
  predicate RepeatAt(s: PollState, ticks: seq<Tick>, i: int)
  {
    && 0 <= i < |ticks|
    && IsDnsFailure(ticks[i].outcome)
    && (if i == 0 then IsDnsError(s.stored) else IsDnsFailure(ticks[i - 1].outcome))
  }

  /** The state once every tick of `ticks` has been recorded: the last
      outcome and the last clock reading. */
  function After(s: PollState, ticks: seq<Tick>): PollState
  {
    if ticks == [] then s
    else PollState(StoredOf(ticks[|ticks| - 1].outcome), Some(ticks[|ticks| - 1].at))
  }

  /** Without a repeated DNS failure every tick is recorded. */
  lemma {:induction false} RunWithoutRepeat(s: PollState, ticks: seq<Tick>)
    requires forall i :: !RepeatAt(s, ticks, i)
    ensures Run(s, ticks) == Completed(After(s, ticks))
    decreases |ticks|
  {
    if ticks != [] {
      assert !RepeatAt(s, ticks, 0);
      var next := PollState(StoredOf(ticks[0].outcome), Some(ticks[0].at));
      assert Fetch(s, ticks[0]) == Completed(next);
      forall i ensures !RepeatAt(next, ticks[1..], i) {
        if 0 <= i < |ticks| - 1 {
          assert !RepeatAt(s, ticks, i + 1);
        }
      }
      RunWithoutRepeat(next, ticks[1..]);
      if |ticks| > 1 {
        assert ticks[1..][|ticks[1..]| - 1] == ticks[|ticks| - 1];
      }
    }
  }

  /** The first repeated DNS failure ends the run with status 1, leaving the
      state recorded by the ticks before it. */
  lemma {:induction false} RunStopsAtFirstRepeat(s: PollState, ticks: seq<Tick>, k: nat)
    requires RepeatAt(s, ticks, k)
    requires forall i :: 0 <= i < k ==> !RepeatAt(s, ticks, i)
    ensures Run(s, ticks) == Exited(1, k, After(s, ticks[..k]))
    decreases k
  {
    if k > 0 {
      assert !RepeatAt(s, ticks, 0);
      var next := PollState(StoredOf(ticks[0].outcome), Some(ticks[0].at));
      assert Fetch(s, ticks[0]) == Completed(next);
      assert RepeatAt(next, ticks[1..], k - 1);
      forall i | 0 <= i < k - 1 ensures !RepeatAt(next, ticks[1..], i) {
        assert !RepeatAt(s, ticks, i + 1);
      }
      RunStopsAtFirstRepeat(next, ticks[1..], k - 1);
      assert ticks[1..][..k - 1] == ticks[1..k];
    }
  }

  /** Among several repeats there is a first one. */
  lemma {:induction false} FirstRepeat(s: PollState, ticks: seq<Tick>, i: nat) returns (k: nat)
    requires RepeatAt(s, ticks, i)
    ensures k <= i && RepeatAt(s, ticks, k)
    ensures forall j :: 0 <= j < k ==> !RepeatAt(s, ticks, j)
    decreases i
  {
    if j :| 0 <= j < i && RepeatAt(s, ticks, j) {
      k := FirstRepeat(s, ticks, j);
    } else {
      k := i;
    }
  }

  /** The poller exits exactly when some tick repeats a DNS failure; it then
      exits with status 1 at the first such tick. */
  lemma PollExits(s: PollState, ticks: seq<Tick>)
    ensures Run(s, ticks).Exited? <==> exists i :: RepeatAt(s, ticks, i)
    ensures Run(s, ticks).Exited? ==>
              && Run(s, ticks).status == 1
              && RepeatAt(s, ticks, Run(s, ticks).at)
              && (forall j :: 0 <= j < Run(s, ticks).at ==> !RepeatAt(s, ticks, j))
              && Run(s, ticks).state == After(s, ticks[..Run(s, ticks).at])
  {
    if i :| RepeatAt(s, ticks, i) {
      var k := FirstRepeat(s, ticks, i);
      RunStopsAtFirstRepeat(s, ticks, k);
    } else {
      RunWithoutRepeat(s, ticks);
    }
  }

  /** From a fresh context the first fetch never exits: at least two fetches
      happen before the poller can stop. */
  lemma FreshPollerFetchesTwice(ticks: seq<Tick>)
    ensures Run(Start, ticks).Exited? ==> Run(Start, ticks).at >= 1
  {
    PollExits(Start, ticks);
  }

  /** Appending one tick to a trace. */
  function Extend(r: PollRun, n: nat, t: Tick): PollRun
  {
    match r
    case Exited(_, _, _) => r
    case Completed(s) =>
      var f := Fetch(s, t);
      if f.Exited? then f.(at := n) else f
  }

  /** The run over `ticks + [t]` continues the run over `ticks` by one fetch. */
  lemma {:induction false} RunSnoc(s: PollState, ticks: seq<Tick>, t: Tick)
    ensures Run(s, ticks + [t]) == Extend(Run(s, ticks), |ticks|, t)
    decreases |ticks|
  {
    if ticks == [] {
      assert [t][1..] == [];
    } else {
      assert (ticks + [t])[1..] == ticks[1..] + [t];
      if Fetch(s, ticks[0]).Completed? {
        RunSnoc(Fetch(s, ticks[0]).state, ticks[1..], t);
      }
    }
  }

  /** Once the poller has exited, later outcomes change nothing. */
  lemma {:induction false} ExitIsFinal(s: PollState, ticks: seq<Tick>, more: seq<Tick>)
    requires Run(s, ticks).Exited?
    ensures Run(s, ticks + more) == Run(s, ticks)
    decreases |more|
  {
    if more == [] {
      assert ticks + more == ticks;
    } else {
      var init := more[..|more| - 1];
      ExitIsFinal(s, ticks, init);
      assert ticks + more == (ticks + init) + [more[|more| - 1]];
      RunSnoc(s, ticks + init, more[|more| - 1]);
    }
  }

  // ---------------------------------------------------------------------------
  // The events of poll_fetcher

  /** What the poller thread does, in order. */
  datatype Event = FetchCall | BarrierWait | Sleep

  /** What the poller does just before its `n`-th fetch: nothing before the
      first, the barrier before the second, a sleep before every later one. */
  function Before(n: nat): seq<Event>
  {
    if n <= 1 then [] else if n == 2 then [BarrierWait] else [Sleep]
  }

  /** The events of `poll_fetcher` up to and including its `n`-th fetch. */
  function Schedule(n: nat): seq<Event>
  {
    if n == 0 then [] else Schedule(n - 1) + Before(n) + [FetchCall]
  }

  /** By its `n`-th fetch the poller has fetched `n` times, waited at the
      barrier once (from the second fetch on) and slept `n - 2` times (from
      the third on). */
  lemma {:induction false} ScheduleCounts(n: nat)
    ensures multiset(Schedule(n))[FetchCall] == n
    ensures multiset(Schedule(n))[BarrierWait] == if n >= 2 then 1 else 0
    ensures multiset(Schedule(n))[Sleep] == if n >= 3 then n - 2 else 0
  {
    if n > 0 {
      ScheduleCounts(n - 1);
      CountsStep(Schedule(n - 1), n);
    }
  }

  /** Counting the events of one more fetch. */
  lemma CountsStep(e: seq<Event>, n: nat)
    requires n >= 1
    requires multiset(e)[FetchCall] == n - 1
    requires multiset(e)[BarrierWait] == if n - 1 >= 2 then 1 else 0
    requires multiset(e)[Sleep] == if n - 1 >= 3 then n - 3 else 0
    ensures multiset(e + Before(n) + [FetchCall])[FetchCall] == n
    ensures multiset(e + Before(n) + [FetchCall])[BarrierWait] == if n >= 2 then 1 else 0
    ensures multiset(e + Before(n) + [FetchCall])[Sleep] == if n >= 3 then n - 2 else 0
  {
    assert multiset(e + Before(n) + [FetchCall]) == multiset(e) + multiset(Before(n)) + multiset{FetchCall};
  }

  /** The first fetch, then the barrier and the second fetch. */
  lemma StartupSchedule()
    ensures Schedule(1) == [FetchCall]
    ensures Schedule(2) == [FetchCall, BarrierWait, FetchCall]
  {
    FirstFetch();
    assert Schedule(2) == Schedule(1) + [BarrierWait] + [FetchCall];
  }

  lemma FirstFetch()
    ensures Schedule(1) == [FetchCall]
  {
    assert Schedule(1) == Schedule(0) + [] + [FetchCall];
  }

  /** The poller first sleeps after its second fetch, before the third. */
  lemma FirstSleep(n: nat)
    ensures Sleep in Schedule(n) <==> n >= 3
  {
    ScheduleCounts(n);
    assert Sleep in Schedule(n) <==> multiset(Schedule(n))[Sleep] > 0;
  }

  /** The events of a run over `ticks`: up to the fetch that exited, or up
      to the last fetch. */
  function RunEvents(r: PollRun, ticks: seq<Tick>): seq<Event>
  {
    if r.Exited? then Schedule(r.at + 1) else Schedule(|ticks|)
  }

  /** Two DNS failures right at startup exit after the second fetch, before
      the poller ever sleeps, keeping the first error. */
  lemma StartupDnsFailures(m1: string, m2: string, a: Instant, b: Instant, rest: seq<Tick>)
    ensures var ticks := [Tick(Failed(Dns(m1)), a), Tick(Failed(Dns(m2)), b)] + rest;
            && Run(Start, ticks) == Exited(1, 1, PollState(Error(Dns(m1)), Some(a)))
            && RunEvents(Run(Start, ticks), ticks) == [FetchCall, BarrierWait, FetchCall]
            && Sleep !in RunEvents(Run(Start, ticks), ticks)
  {
    var ticks := [Tick(Failed(Dns(m1)), a), Tick(Failed(Dns(m2)), b)] + rest;
    assert !RepeatAt(Start, ticks, 0);
    assert RepeatAt(Start, ticks, 1);
    RunStopsAtFirstRepeat(Start, ticks, 1);
    assert ticks[..1] == [Tick(Failed(Dns(m1)), a)];
    StartupSchedule();
  }

  // ---------------------------------------------------------------------------
  // What the process does after the poller exits

  /** The process as the web server sees it: still serving a poll state
      (with or without a live poller), or terminated with a status. */
  datatype Process = Serving(state: PollState, polling: bool) | Terminated(status: int)

  /** As written: `sys.exit(1)` runs in the poller's daemon thread, where
      `SystemExit` ends that thread only. The server keeps answering from the
      state left before the second failure and nothing fetches again. */
  function ProcessAsWritten(s: PollState, ticks: seq<Tick>): (p: Process)
    ensures p.Serving?
  {
    match Run(s, ticks)
    case Completed(st) => Serving(st, true)
    case Exited(_, _, st) => Serving(st, false)
  }

  /** As intended: the exit ends the process with its status, so that the
      service manager restarts it. */
  function ProcessIntended(s: PollState, ticks: seq<Tick>): Process
  {
    match Run(s, ticks)
    case Completed(st) => Serving(st, true)
    case Exited(status, _, _) => Terminated(status)
  }

  /** The intended process terminates with status 1 exactly when a DNS
      failure repeats. */
  lemma IntendedTermination(s: PollState, ticks: seq<Tick>)
    ensures ProcessIntended(s, ticks).Terminated? <==> exists i :: RepeatAt(s, ticks, i)
    ensures ProcessIntended(s, ticks).Terminated? ==> ProcessIntended(s, ticks) == Terminated(1)
  {
    PollExits(s, ticks);
  }

  /** As written, two DNS failures at startup leave the server serving the
      first DNS error with no poller, whatever the later fetches would have
      returned; the intended process terminates with status 1. */
  lemma StaleDnsErrorAsWritten(m1: string, m2: string, a: Instant, b: Instant, rest: seq<Tick>)
    ensures var ticks := [Tick(Failed(Dns(m1)), a), Tick(Failed(Dns(m2)), b)];
            && ProcessAsWritten(Start, ticks + rest) == Serving(PollState(Error(Dns(m1)), Some(a)), false)
            && ProcessIntended(Start, ticks + rest) == Terminated(1)
  {
    StartupDnsFailures(m1, m2, a, b, rest);
  }
}
