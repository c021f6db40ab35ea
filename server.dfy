/** The web server's shared context (server.py): the state the poller, the
    render loop and the HTTP handlers share, and what each of them does to
    it. Threads are not modelled; each loop runs over a trace of ticks, and
    the clock, the fetch outcomes and the success of file writes are passed
    in. */
module Server {
  import opened Py
  import opened Clock
  import opened Poller
  import Store
  import Renderer

  /** The store key of the message of the day. */
  const MOTD: string := "motd"

  /** The e-ink display: it shows every image pushed to it, in order. */
  class Device {
    var shown: seq<Renderer.Image>

    constructor ()
      ensures shown == []
    {
      shown := [];
    }

    /** `ds.update(img)`. */
    method Update(img: Renderer.Image)
      modifies this
      ensures shown == old(shown) + [img]
    {
      shown := shown + [img];
    }
  }

  // ---------------------------------------------------------------------------
  // update_screen and render_loop, as functions of the inputs

  /** What `update_screen` draws at `now`: Ok(None) when there is no device,
      Ok(Some(img)) for the image it pushes, or the exception it raises
      before pushing. At night it is the screensaver; by day the forecast
      when a document is stored; with an exception stored `img` is never
      bound. */
  function ScreenUpdate(hasDevice: bool, stored: Stored, now: Instant): Result<Option<Renderer.Image>>
  {
    if !hasDevice then Ok(None)
    else if IsNight(now) then Ok(Some(Renderer.Stars))
    else if stored.Error? then Err(UnboundLocalError("img"))
    else
      var img :- Renderer.Draw(stored.doc, now);
      Ok(Some(img))
  }

  /** The images one screen update pushes. */
  function PushOf(u: Result<Option<Renderer.Image>>): (p: seq<Renderer.Image>)
    ensures |p| <= 1
  {
    if u.Ok? && u.value.Some? then [u.value.value] else []
  }

  /** Whether a call raised. */
  function Raised<T>(u: Result<T>): (r: Outcome)
    ensures r.Pass? <==> u.Ok?
  {
    if u.Ok? then Pass else Fail(u.error)
  }

  /** Every image pushed by the render loop over the times `times`. */
  function Pushed(hasDevice: bool, stored: Stored, times: seq<Instant>): (p: seq<Renderer.Image>)
    ensures |p| <= |times|
    decreases |times|
  {
    if times == [] then []
    else Pushed(hasDevice, stored, times[..|times| - 1]) + PushOf(ScreenUpdate(hasDevice, stored, times[|times| - 1]))
  }

  /** `screen_updated_at` after the render loop over `times`: the last time
      whose update did not raise. */
  function LastScreenUpdate(prev: Option<Instant>, hasDevice: bool, stored: Stored, times: seq<Instant>): Option<Instant>
    decreases |times|
  {
    if times == [] then prev
    else if ScreenUpdate(hasDevice, stored, times[|times| - 1]).Ok? then Some(times[|times| - 1])
    else LastScreenUpdate(prev, hasDevice, stored, times[..|times| - 1])
  }

  /** With a device, every night-time update pushes the screensaver whatever
      the fetch state, and counts as a screen update. */
  lemma {:induction false} NightShowsScreensaver(stored: Stored, prev: Option<Instant>, times: seq<Instant>)
    requires forall i :: 0 <= i < |times| ==> IsNight(times[i])
    ensures Pushed(true, stored, times) == seq(|times|, _ => Renderer.Stars)
    ensures LastScreenUpdate(prev, true, stored, times) == if times == [] then prev else Some(times[|times| - 1])
    decreases |times|
  {
    if times != [] {
      var init := times[..|times| - 1];
      NightShowsScreensaver(stored, prev, init);
      assert seq(|times|, _ => Renderer.Stars) == seq(|init|, _ => Renderer.Stars) + [Renderer.Stars];
    }
  }

  /** With a device and an exception stored, daytime updates all raise
      UnboundLocalError: nothing is pushed and `screen_updated_at` keeps its
      value. */
  lemma {:induction false} ErrorByDayPushesNothing(e: FetchError, prev: Option<Instant>, times: seq<Instant>)
    requires forall i :: 0 <= i < |times| ==> !IsNight(times[i])
    ensures Pushed(true, Error(e), times) == []
    ensures LastScreenUpdate(prev, true, Error(e), times) == prev
    ensures forall i :: 0 <= i < |times| ==> Raised(ScreenUpdate(true, Error(e), times[i])) == Fail(UnboundLocalError("img"))
    decreases |times|
  {
    if times != [] {
      ErrorByDayPushesNothing(e, prev, times[..|times| - 1]);
    }
  }

  /** Without a device nothing is pushed and every update sets
      `screen_updated_at`. */
  lemma {:induction false} NoDeviceStillUpdates(stored: Stored, prev: Option<Instant>, times: seq<Instant>)
    ensures Pushed(false, stored, times) == []
    ensures LastScreenUpdate(prev, false, stored, times) == if times == [] then prev else Some(times[|times| - 1])
    decreases |times|
  {
    if times != [] {
      NoDeviceStillUpdates(stored, prev, times[..|times| - 1]);
    }
  }

  // ---------------------------------------------------------------------------
  // Pages

  /** The forecast shown on a page: the exception's text, or the document
      (whose `json.dumps` text is not modelled). */
  datatype ForecastText = ExceptionText(message: string) | DocumentJson(doc: Json)

  /** The values `render_latest` passes to its template. */
  datatype LatestView = LatestView(
    template: string,
    sinceFetch: string,
    sinceMotd: string,
    sinceScreen: string,
    forecast: ForecastText,
    motd: string)

  /** An HTTP response. */
  datatype Response =
    | Html(page: LatestView)
    | Png(image: Renderer.Image)
    | Plain(status: int, body: string)
    | InternalServerError
    | BadRequest

  function ForecastTextOf(stored: Stored): (f: ForecastText)
    ensures f.ExceptionText? <==> stored.Error?
  {
    match stored
    case Doc(doc) => DocumentJson(doc)
    case Error(e) => ExceptionText(e.message)
  }

  /** `str(renderer.motd or "")` for a renderer whose motd attribute may
      never have been assigned, with a missing attribute read as "". */
  function MotdText(motd: Option<string>): (t: string)
    ensures motd.Some? ==> t == motd.value
    ensures motd.None? ==> t == ""
  {
    if motd.Some? then motd.value else ""
  }

  /** `str(renderer.motd or "")` as written: reading an attribute that was
      never assigned raises AttributeError. */
  function MotdTextAsWritten(motd: Option<string>): (r: Result<string>)
    ensures r.Ok? <==> motd.Some?
    ensures r.Ok? ==> r.value == MotdText(motd)
    ensures r.Err? ==> r.error == AttributeError("motd")
  {
    if motd.Some? then Ok(motd.value) else Err(AttributeError("motd"))
  }

  /** The motd `create_app` gives the renderer from the store's value:
      assigned only when it is a non-empty string (`if motd:`). */
  function StartupMotd(found: Option<string>): (m: Option<string>)
    ensures m.Some? <==> found.Some? && found.value != ""
    ensures m.Some? ==> m == found
  {
    if found.Some? && found.value != "" then found else None
  }

  /** The same step as written: `store.get` raises KeyError when the store
      has no motd. */
  function StartupMotdAsWritten(got: Result<string>): (r: Result<Option<string>>)
    ensures r.Ok? <==> got.Ok?
    ensures r.Err? ==> r.error == got.error
    ensures r.Ok? ==> r.value == StartupMotd(Some(got.value))
  {
    var motd :- got;
    Ok(StartupMotd(Some(motd)))
  }

  /** A store that holds an empty motd (after DELETE /motd and a restart)
      leaves the renderer's motd unassigned, so every page render as written
      raises AttributeError, where the intended page shows "". A store
      without a motd (a fresh install) already fails at startup as written. */
  lemma EmptyMotdBreaksPages()
    ensures StartupMotd(Some("")) == None
    ensures MotdTextAsWritten(StartupMotd(Some(""))) == Err(AttributeError("motd"))
    ensures MotdText(StartupMotd(Some(""))) == ""
    ensures StartupMotdAsWritten(Err(KeyError(MOTD))) == Err(KeyError(MOTD))
    ensures StartupMotd(None) == None
  {
  }

  // ---------------------------------------------------------------------------
  // The context

  class Context {
    const renderer: Renderer.Renderer
    const ds: Option<Device>
    const store: Store.FileStore
    /** `last_fetch_response`. */
    var lastFetchResponse: Stored
    var lastFetchedAt: Option<Instant>
    var motdUpdatedAt: Option<Instant>
    var screenUpdatedAt: Option<Instant>

    /** `Context(...)`: an empty document and no timestamps. */
    constructor (renderer: Renderer.Renderer, ds: Option<Device>, store: Store.FileStore)
      ensures this.renderer == renderer && this.ds == ds && this.store == store
      ensures lastFetchResponse == Initial && lastFetchedAt == None
      ensures motdUpdatedAt == None && screenUpdatedAt == None
    {
      this.renderer := renderer;
      this.ds := ds;
      this.store := store;
      lastFetchResponse := Initial;
      lastFetchedAt := None;
      motdUpdatedAt := None;
      screenUpdatedAt := None;
    }

    /** The part of the context the poller works on. */
    function Poll(): PollState
      reads this
    {
      PollState(lastFetchResponse, lastFetchedAt)
    }

    /** The display, when there is one. */
    function DeviceFrame(): set<object>
    {
      if ds.Some? then {ds.value} else {}
    }

    /** `fetch_forecast()` with the fetcher's outcome and the clock reading
        passed in: record the outcome and the time, or exit (raise
        `SystemExit(1)`) changing nothing. */
    method FetchForecast(outcome: FetchOutcome, now: Instant) returns (step: FetchStep)
      modifies this
      ensures step == FetchTransition(old(lastFetchResponse), outcome)
      ensures step.Recorded? ==> lastFetchResponse == step.stored && lastFetchedAt == Some(now)
      ensures step.Exit? ==> lastFetchResponse == old(lastFetchResponse) && lastFetchedAt == old(lastFetchedAt)
      ensures motdUpdatedAt == old(motdUpdatedAt) && screenUpdatedAt == old(screenUpdatedAt)
    {
      if outcome.Fetched? {
        lastFetchResponse := Doc(outcome.doc);
      } else {
        if IsDnsError(lastFetchResponse) && outcome.error.Dns? {
          return Exit(1);
        }
        lastFetchResponse := Error(outcome.error);
      }
      lastFetchedAt := Some(now);
      step := Recorded(lastFetchResponse);
    }

    /** `poll_fetcher()` over a trace of fetches: one fetch, the barrier,
        then a fetch before each sleep, until `SystemExit` ends the loop. */
    method PollFetcher(ticks: seq<Tick>) returns (run: PollRun, events: seq<Event>)
      modifies this
      ensures run == Run(old(Poll()), ticks)
      ensures Poll() == run.state
      ensures events == RunEvents(run, ticks)
      ensures motdUpdatedAt == old(motdUpdatedAt) && screenUpdatedAt == old(screenUpdatedAt)
    {
      ghost var s0 := Poll();
      run := Completed(Poll());
      events := [];
      var i := 0;
      while i < |ticks| && run.Completed?
        invariant 0 <= i <= |ticks|
        invariant run == Run(s0, ticks[..i])
        invariant Poll() == run.state
        invariant run.Exited? ==> run.at + 1 == i
        invariant events == Schedule(i)
        invariant motdUpdatedAt == old(motdUpdatedAt) && screenUpdatedAt == old(screenUpdatedAt)
      {
        events := events + Before(i + 1) + [FetchCall];
        var step := FetchForecast(ticks[i].outcome, ticks[i].at);
        RunSnoc(s0, ticks[..i], ticks[i]);
        assert ticks[..i + 1] == ticks[..i] + [ticks[i]];
        if step.Exit? {
          run := Exited(step.status, i, run.state);
        } else {
          run := Completed(Poll());
        }
        i := i + 1;
      }
      if run.Exited? {
        ExitIsFinal(s0, ticks[..i], ticks[i..]);
        assert ticks[..i] + ticks[i..] == ticks;
      } else {
        assert ticks[..i] == ticks;
      }
    }

    /** `update_screen()` at `now`: push the screensaver or the forecast to
        the device, if any, then set `screen_updated_at`; an exception skips
        both. */
    method UpdateScreen(now: Instant) returns (r: Outcome)
      modifies this, renderer, DeviceFrame()
      ensures r == Raised(ScreenUpdate(ds.Some?, lastFetchResponse, now))
      ensures ds.Some? ==> ds.value.shown == old(ds.value.shown) + PushOf(ScreenUpdate(true, lastFetchResponse, now))
      ensures screenUpdatedAt == if r.Pass? then Some(now) else old(screenUpdatedAt)
      ensures lastFetchResponse == old(lastFetchResponse) && lastFetchedAt == old(lastFetchedAt)
      ensures motdUpdatedAt == old(motdUpdatedAt) && renderer.motd == old(renderer.motd)
    {
      if ds.Some? {
        var img: Renderer.Image;
        if IsNight(now) {
          img := Renderer.Stars;
        } else if lastFetchResponse.Doc? {
          var drawn := renderer.Render(lastFetchResponse.doc, now);
          if drawn.Err? {
            return Fail(drawn.error);
          }
          img := drawn.value;
        } else {
          return Fail(UnboundLocalError("img"));
        }
        ds.value.Update(img);
      }
      screenUpdatedAt := Some(now);
      r := Pass;
    }

    /** `render_loop()` over the times of its iterations: every exception of
        `update_screen` is caught, so there is one outcome per iteration. */
    method RenderLoop(times: seq<Instant>) returns (results: seq<Outcome>)
      modifies this, renderer, DeviceFrame()
      ensures |results| == |times|
      ensures forall i :: 0 <= i < |times| ==> results[i] == Raised(ScreenUpdate(ds.Some?, lastFetchResponse, times[i]))
      ensures ds.Some? ==> ds.value.shown == old(ds.value.shown) + Pushed(true, lastFetchResponse, times)
      ensures screenUpdatedAt == LastScreenUpdate(old(screenUpdatedAt), ds.Some?, lastFetchResponse, times)
      ensures lastFetchResponse == old(lastFetchResponse) && lastFetchedAt == old(lastFetchedAt)
      ensures motdUpdatedAt == old(motdUpdatedAt) && renderer.motd == old(renderer.motd)
    {
      results := [];
      var i := 0;
      while i < |times|
        invariant 0 <= i <= |times|
        invariant |results| == i
        invariant forall j :: 0 <= j < i ==> results[j] == Raised(ScreenUpdate(ds.Some?, lastFetchResponse, times[j]))
        invariant ds.Some? ==> ds.value.shown == old(ds.value.shown) + Pushed(true, lastFetchResponse, times[..i])
        invariant screenUpdatedAt == LastScreenUpdate(old(screenUpdatedAt), ds.Some?, lastFetchResponse, times[..i])
        invariant lastFetchResponse == old(lastFetchResponse) && lastFetchedAt == old(lastFetchedAt)
        invariant motdUpdatedAt == old(motdUpdatedAt) && renderer.motd == old(renderer.motd)
      {
        var r := UpdateScreen(times[i]);
        assert times[..i + 1][..i] == times[..i];
        results := results + [r];
        i := i + 1;
      }
      assert times[..i] == times;
    }

    /** `Context.set_motd(motd)`: the store is written first; when that
        raises, the renderer's motd and `motd_updated_at` keep their values
        (the store's cache has the new value all the same). */
    method SetMotd(motd: string, now: Instant, write: Store.WriteOutcome) returns (r: Outcome)
      modifies this, store, renderer
      ensures store.cache == old(store.cache)[MOTD := motd]
      ensures write.Written? ==> store.file == Store.Holds(Store.Dumped(store.cache))
      ensures write.OpenFailed? ==> store.file == old(store.file)
      ensures write.DumpFailed? ==> store.file == Store.Corrupt
      ensures r == if write.Written? then Pass else Fail(OSError)
      ensures r.Pass? ==> renderer.motd == Some(motd) && motdUpdatedAt == Some(now)
      ensures r.Fail? ==> renderer.motd == old(renderer.motd) && motdUpdatedAt == old(motdUpdatedAt)
      ensures unchanged(renderer`weatherIcon, renderer`timeText, renderer`mainText, renderer`temp, renderer`description)
      ensures Poll() == old(Poll()) && screenUpdatedAt == old(screenUpdatedAt)
    {
      r := store.Set(MOTD, motd, write);
      if r.Fail? {
        return;
      }
      renderer.motd := Some(motd);
      motdUpdatedAt := Some(now);
    }

    /** `render_latest(template)` with a missing motd attribute read as "". */
    function LatestPage(template: string, now: Instant): (v: LatestView)
      reads this, renderer
      ensures v.forecast.ExceptionText? <==> lastFetchResponse.Error?
      ensures v.motd == MotdText(renderer.motd)
      ensures v.sinceFetch == FormatLastUpdateTime(lastFetchedAt, now)
      ensures v.sinceMotd == FormatLastUpdateTime(motdUpdatedAt, now)
      ensures v.sinceScreen == FormatLastUpdateTime(screenUpdatedAt, now)
    {
      LatestView(
        template,
        FormatLastUpdateTime(lastFetchedAt, now),
        FormatLastUpdateTime(motdUpdatedAt, now),
        FormatLastUpdateTime(screenUpdatedAt, now),
        ForecastTextOf(lastFetchResponse),
        MotdText(renderer.motd))
    }

    /** `render_latest(template)` as written: AttributeError while the
        renderer's motd has never been assigned. */
    function LatestPageAsWritten(template: string, now: Instant): (r: Result<LatestView>)
      reads this, renderer
      ensures r.Ok? <==> renderer.motd.Some?
      ensures r.Ok? ==> r.value == LatestPage(template, now)
    {
      var motd :- MotdTextAsWritten(renderer.motd);
      Ok(LatestPage(template, now))
    }

    /** POST /motd: the form's `motd` field becomes the motd, and the page
        shows it. A form without the field is a 400 response; a failed
        write a 500 one. `set_motd` reads the clock at `now` and the page
        reads it again at `pageNow`. */
    method PostMotd(form: map<string, string>, now: Instant, write: Store.WriteOutcome, pageNow: Instant)
      returns (resp: Response)
      modifies this, store, renderer
      ensures MOTD !in form ==> resp == BadRequest && unchanged(this, store, renderer)
      ensures MOTD in form ==> store.cache == old(store.cache)[MOTD := form[MOTD]]
      ensures MOTD in form && !write.Written? ==> resp == InternalServerError
      ensures MOTD in form && !write.Written? ==> renderer.motd == old(renderer.motd) && motdUpdatedAt == old(motdUpdatedAt)
      ensures MOTD in form && write.Written? ==> renderer.motd == Some(form[MOTD]) && motdUpdatedAt == Some(now)
      ensures MOTD in form && write.Written? ==> store.file == Store.Holds(Store.Dumped(store.cache))
      ensures MOTD in form && write.OpenFailed? ==> store.file == old(store.file)
      ensures MOTD in form && write.DumpFailed? ==> store.file == Store.Corrupt
      ensures MOTD in form && write.Written? ==> resp == Html(LatestPage("latest.html", pageNow))
      ensures MOTD in form && write.Written? ==>
                resp.page.motd == form[MOTD] && resp.page.sinceMotd == FormatLastUpdateTime(Some(now), pageNow)
      ensures MOTD in form && write.Written? && now <= pageNow < now + MicrosPerSecond ==>
                resp.page.sinceMotd == "0:00:00 ago"
      ensures Poll() == old(Poll()) && screenUpdatedAt == old(screenUpdatedAt)
    {
      if MOTD !in form {
        return BadRequest;
      }
      resp := ChangeMotd(form[MOTD], now, write, pageNow);
    }

    /** DELETE /motd: the motd becomes the empty string. */
    method DeleteMotd(now: Instant, write: Store.WriteOutcome, pageNow: Instant) returns (resp: Response)
      modifies this, store, renderer
      ensures store.cache == old(store.cache)[MOTD := ""]
      ensures !write.Written? ==> resp == InternalServerError
      ensures !write.Written? ==> renderer.motd == old(renderer.motd) && motdUpdatedAt == old(motdUpdatedAt)
      ensures write.Written? ==> renderer.motd == Some("") && motdUpdatedAt == Some(now)
      ensures write.Written? ==> LatestPageAsWritten("latest.html", pageNow).Ok?
      ensures write.Written? ==> store.file == Store.Holds(Store.Dumped(store.cache))
      ensures write.OpenFailed? ==> store.file == old(store.file)
      ensures write.DumpFailed? ==> store.file == Store.Corrupt
      ensures write.Written? ==> resp == Html(LatestPage("latest.html", pageNow))
      ensures write.Written? ==> resp.page.motd == "" && resp.page.sinceMotd == FormatLastUpdateTime(Some(now), pageNow)
      ensures write.Written? && now <= pageNow < now + MicrosPerSecond ==> resp.page.sinceMotd == "0:00:00 ago"
      ensures Poll() == old(Poll()) && screenUpdatedAt == old(screenUpdatedAt)
    {
      resp := ChangeMotd("", now, write, pageNow);
    }

    /** The handlers' shared `set_motd(motd)`: set it at `now`, then render
        the latest page at `pageNow`. */
    method ChangeMotd(motd: string, now: Instant, write: Store.WriteOutcome, pageNow: Instant) returns (resp: Response)
      modifies this, store, renderer
      ensures store.cache == old(store.cache)[MOTD := motd]
      ensures !write.Written? ==> resp == InternalServerError
      ensures !write.Written? ==> renderer.motd == old(renderer.motd) && motdUpdatedAt == old(motdUpdatedAt)
      ensures write.Written? ==> renderer.motd == Some(motd) && motdUpdatedAt == Some(now)
      ensures write.Written? ==> LatestPageAsWritten("latest.html", pageNow).Ok?
      ensures write.Written? ==> store.file == Store.Holds(Store.Dumped(store.cache))
      ensures write.OpenFailed? ==> store.file == old(store.file)
      ensures write.DumpFailed? ==> store.file == Store.Corrupt
      ensures write.Written? ==> resp == Html(LatestPage("latest.html", pageNow))
      ensures write.Written? ==> resp.page.motd == motd && resp.page.sinceMotd == FormatLastUpdateTime(Some(now), pageNow)
      ensures write.Written? && now <= pageNow < now + MicrosPerSecond ==> resp.page.sinceMotd == "0:00:00 ago"
      ensures Poll() == old(Poll()) && screenUpdatedAt == old(screenUpdatedAt)
    {
      var r := SetMotd(motd, now, write);
      if r.Fail? {
        return InternalServerError;
      }
      if now <= pageNow < now + MicrosPerSecond {
        FormatWithinASecond(now, pageNow);
      }
      resp := Html(LatestPage("latest.html", pageNow));
    }

    /** GET /preview: an exception stored is answered with its text and
        status 500 without touching the renderer; otherwise the forecast is
        drawn, and an exception while drawing is a 500 response. */
    method Preview(now: Instant) returns (resp: Response)
      modifies renderer
      ensures lastFetchResponse.Error? ==> resp == Plain(500, lastFetchResponse.error.message) && unchanged(renderer)
      ensures lastFetchResponse.Doc? ==>
                resp == match Renderer.Draw(lastFetchResponse.doc, now)
                        case Ok(img) => Png(img)
                        case Err(_) => InternalServerError
      ensures renderer.motd == old(renderer.motd)
    {
      if lastFetchResponse.Error? {
        return Plain(500, lastFetchResponse.error.message);
      }
      var drawn := renderer.Render(lastFetchResponse.doc, now);
      if drawn.Err? {
        return InternalServerError;
      }
      resp := Png(drawn.value);
    }
  }

  // ---------------------------------------------------------------------------
  // create_app

  /** `create_app()` with the store file and the display passed in: open the
      store (a file that is not JSON raises), give the renderer a non-empty
      stored motd, and start from an empty document with no timestamps. An
      absent motd is treated as none. */
  method CreateApp(disk: Store.FileState, device: Option<Device>) returns (r: Result<Context>)
    ensures r.Ok? <==> !disk.Corrupt?
    ensures r.Err? ==> r.error == JSONDecodeError
    ensures r.Ok? ==> fresh(r.value) && fresh(r.value.renderer) && fresh(r.value.store) && r.value.ds == device
    ensures r.Ok? ==> r.value.Poll() == Start && r.value.motdUpdatedAt == None && r.value.screenUpdatedAt == None
    ensures r.Ok? ==> r.value.renderer.motd == StartupMotd(r.value.store.Find(MOTD))
    ensures r.Ok? && disk.Missing? ==> r.value.renderer.motd == None && r.value.store.file == Store.Holds(map[])
    ensures r.Ok? && disk.Holds? ==> Store.LoadedFrom(r.value.store.cache, disk.data) && r.value.store.file == disk
    ensures r.Ok? && disk.Holds? ==>
              r.value.renderer.motd == StartupMotd(if MOTD in disk.data then Some(Store.Str(disk.data[MOTD])) else None)
  {
    var loaded := Store.Open(disk);
    if loaded.Err? {
      return Err(loaded.error);
    }
    var store := loaded.value;
    var renderer := new Renderer.Renderer();
    renderer.motd := StartupMotd(store.Find(MOTD));
    var ctx := new Context(renderer, device, store);
    r := Ok(ctx);
  }

  /** `create_app()` as written: `store.get("motd")` raises KeyError when the
      store has no motd, which is always the case for a missing file. */
  method CreateAppAsWritten(disk: Store.FileState, device: Option<Device>) returns (r: Result<Context>)
    ensures disk.Corrupt? ==> r == Err(JSONDecodeError)
    ensures disk.Missing? ==> r == Err(KeyError(MOTD))
    ensures disk.Holds? ==> (r.Ok? <==> MOTD in disk.data)
    ensures r.Ok? ==> fresh(r.value) && fresh(r.value.renderer) && fresh(r.value.store) && r.value.ds == device
    ensures r.Ok? ==> r.value.Poll() == Start && r.value.motdUpdatedAt == None && r.value.screenUpdatedAt == None
    ensures r.Ok? ==> r.value.renderer.motd == StartupMotd(r.value.store.Find(MOTD))
    ensures r.Ok? ==> Store.LoadedFrom(r.value.store.cache, disk.data) && r.value.store.file == disk
    ensures r.Ok? ==> r.value.renderer.motd == StartupMotd(Some(Store.Str(disk.data[MOTD])))
  {
    var loaded := Store.Open(disk);
    if loaded.Err? {
      return Err(loaded.error);
    }
    var store := loaded.value;
    var renderer := new Renderer.Renderer();
    var motd := StartupMotdAsWritten(store.Get(MOTD));
    if motd.Err? {
      return Err(motd.error);
    }
    renderer.motd := motd.value;
    var ctx := new Context(renderer, device, store);
    r := Ok(ctx);
  }
}
