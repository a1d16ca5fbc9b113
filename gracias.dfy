/** The thank-you page after a payment: where its download link points,
    which notice it shows for the payment status, and the three-second
    countdown before the download starts on its own. */
module Gracias {
  import opened Wrappers
  import opened Text

  const PENDING_STATUSES: set<string> := {"pending", "in_process", "processing"}
  const FAILURE_STATUSES: set<string> := {"failure", "rejected", "cancelled", "not_approved", "error"}

  const DEFAULT_API_BASE: string := "http://localhost:5001"

  /** `(VITE_API_BASE || "http://localhost:5001").replace(/\/$/, "")`. */
  function ApiBase(env: string): (r: string)
    ensures env == "" ==> r == DEFAULT_API_BASE
    ensures env != "" && env[|env| - 1] == '/' ==> r == env[..|env| - 1]
    ensures env != "" && env[|env| - 1] != '/' ==> r == env
  {
    var s := Or(env, DEFAULT_API_BASE);
    if s[|s| - 1] == '/' then s[..|s| - 1] else s
  }

  /** `/^https?:\/\//i`. */
  predicate IsAbsoluteHttp(s: string)
  {
    StartsWithIgnoreCase(s, "http://") || StartsWithIgnoreCase(s, "https://")
  }

  /** `resolveDownloadUrl`: nothing for an empty value, an absolute http(s)
      URL as it is, a path on the API, or a raw token under the API's
      download route. */
  function ResolveDownloadUrl(apiBase: string, param: string): (r: Option<string>)
    ensures r.None? <==> param == ""
    ensures param != "" && IsAbsoluteHttp(param) ==> r == Some(param)
    ensures param != "" && !IsAbsoluteHttp(param) && StartsWith(param, "/") ==> r == Some(apiBase + param)
    ensures param != "" && !IsAbsoluteHttp(param) && !StartsWith(param, "/") ==>
      r == Some(apiBase + "/api/download/" + EncodeUriComponent(param))
  {
    if param == "" then None
    else if IsAbsoluteHttp(param) then Some(param)
    else if StartsWith(param, "/") then Some(apiBase + param)
    else Some(apiBase + "/api/download/" + EncodeUriComponent(param))
  }

  /** A value whose first character is no `h` in either case is not an
      absolute http(s) URL. */
  lemma NotAbsoluteUnlessH(s: string)
    requires s != [] && LowerChar(s[0]) != 'h'
    ensures !IsAbsoluteHttp(s)
  {
    if |s| >= 7 {
      assert ToLower(s[..7])[0] == LowerChar(s[0]);
      assert ToLower("http://")[0] == 'h';
    }
    if |s| >= 8 {
      assert ToLower(s[..8])[0] == LowerChar(s[0]);
      assert ToLower("https://")[0] == 'h';
    }
  }

  /** A raw hex token resolves under the API's download route, unchanged
      by the percent-encoding. */
  lemma RawTokenResolves(apiBase: string, random: seq<byte>)
    requires |random| == 32
    ensures ResolveDownloadUrl(apiBase, HexEncode(random)) == Some(apiBase + "/api/download/" + HexEncode(random))
  {
    var token := HexEncode(random);
    EncodeHexIsIdentity(random);
    assert |token| == 64 && IsHexDigit(token[0]);
    NotAbsoluteUnlessH(token);
    assert !StartsWith(token, "/") by { assert token[0] != '/'; }
  }

  /** The download path of a token resolves to the API base followed by
      the path. */
  lemma PathResolves(apiBase: string, token: string)
    ensures ResolveDownloadUrl(apiBase, "/api/download/" + token) == Some(apiBase + "/api/download/" + token)
  {
    var path := "/api/download/" + token;
    assert path[0] == '/';
    NotAbsoluteUnlessH(path);
    assert StartsWith(path, "/") by { assert path[..1] == "/"; }
    assert apiBase + path == apiBase + "/api/download/" + token;
  }

  /** The two forms the backend hands out for a download token, the raw
      token and the `/api/download/<token>` path, resolve to the same URL. */
  lemma RawTokenAndPathAgree(apiBase: string, random: seq<byte>)
    requires |random| == 32
    ensures var token := HexEncode(random);
      ResolveDownloadUrl(apiBase, token) == ResolveDownloadUrl(apiBase, "/api/download/" + token)
      == Some(apiBase + "/api/download/" + token)
  {
    RawTokenResolves(apiBase, random);
    PathResolves(apiBase, HexEncode(random));
  }

  /** The `?download=` value wins over the link the navigation state
      carries. */
  function DownloadUrl(apiBase: string, fromQuery: string, fromState: string): (r: Option<string>)
    ensures fromQuery != "" ==> r == ResolveDownloadUrl(apiBase, fromQuery)
    ensures fromQuery == "" ==> r == ResolveDownloadUrl(apiBase, fromState)
    ensures r.None? <==> fromQuery == "" && fromState == ""
  {
    match ResolveDownloadUrl(apiBase, fromQuery)
    case Some(u) => Some(u)
    case None => ResolveDownloadUrl(apiBase, fromState)
  }

  /** The pending notice: no `?error=` and a pending status, in any case. */
  predicate ShowPending(errorParam: string, statusParam: string)
  {
    errorParam == "" && ToLower(statusParam) in PENDING_STATUSES
  }

  predicate ShowFailure(errorParam: string, statusParam: string)
  {
    errorParam == "" && ToLower(statusParam) in FAILURE_STATUSES
  }

  /** The two notices never show together, and an error hides both. */
  lemma NoticesExclusive(errorParam: string, statusParam: string)
    ensures !(ShowPending(errorParam, statusParam) && ShowFailure(errorParam, statusParam))
    ensures errorParam != "" ==> !ShowPending(errorParam, statusParam) && !ShowFailure(errorParam, statusParam)
  {
  }

  /** The status is compared lower-cased, so lower-casing it first changes
      nothing. */
  lemma StatusCaseIgnored(errorParam: string, statusParam: string)
    ensures ShowPending(errorParam, ToLower(statusParam)) == ShowPending(errorParam, statusParam)
    ensures ShowFailure(errorParam, ToLower(statusParam)) == ShowFailure(errorParam, statusParam)
  {
    ToLowerIdempotent(statusParam);
  }

  /** One tick of the interval: `s > 0 ? s - 1 : 0`. */
  function Tick(s: int): int
  {
    if s > 0 then s - 1 else 0
  }

  function Ticks(s: int, k: nat): int
    decreases k
  {
    if k == 0 then s else Ticks(Tick(s), k - 1)
  }

  /** After `k` ticks from a count of `s >= 0` the count is `max(s - k, 0)`:
      it goes down by one a second and stays at 0. */
  lemma {:induction false} TicksFloorAtZero(s: int, k: nat)
    requires s >= 0
    ensures Ticks(s, k) == if s - k > 0 then s - k else 0
  {
    if k > 0 {
      TicksFloorAtZero(Tick(s), k - 1);
    }
  }

  /** What the effect's dependency list holds at a commit: the download
      URL and, when the list names it, `autoStarted`. */
  datatype Deps = Deps(downloadUrl: Option<string>, autoStarted: Option<bool>)

  function DepsOf(downloadUrl: Option<string>, autoStarted: bool, watchesAutoStarted: bool): Deps
  {
    Deps(downloadUrl, if watchesAutoStarted then Some(autoStarted) else None)
  }

  /** The page's countdown state and the timers of its effect. The page as
      written lists `[downloadUrl, autoStarted]` as the effect's
      dependencies (`watchesAutoStarted`); the corrected page lists only
      `[downloadUrl]`. `intervalOn` and `timerOn` say whether the interval
      and the three-second timeout of the last effect run are still set;
      `downloads` counts the download attempts fired (the click with its
      600 ms fallback counts once). */
  class Countdown {
    const watchesAutoStarted: bool
    var countdown: int
    var autoStarted: bool
    var intervalOn: bool
    var timerOn: bool
    var downloads: nat
    var lastDeps: Option<Deps>

    ghost predicate Valid()
      reads this
    {
      0 <= countdown <= 3
      && (intervalOn || timerOn || downloads > 0 ==> autoStarted)
      && (timerOn ==> intervalOn)
      && downloads + (if timerOn then 1 else 0) <= 1
    }

    constructor (watchesAutoStarted: bool)
      ensures Valid() && this.watchesAutoStarted == watchesAutoStarted
      ensures countdown == 3 && !autoStarted && !intervalOn && !timerOn && downloads == 0 && lastDeps.None?
    {
      this.watchesAutoStarted := watchesAutoStarted;
      countdown := 3;
      autoStarted := false;
      intervalOn, timerOn := false, false;
      downloads := 0;
      lastDeps := None;
    }

    /** A commit of the page. The effect runs again only when its
        dependencies changed since its last run; before it does, the last
        run's cleanup clears the interval and the timeout. With a download
        URL and not yet started, the run marks the start and sets the
        interval and the timeout; otherwise it returns at once. */
    method Commit(downloadUrl: Option<string>)
      requires Valid()
      modifies this
      ensures Valid()
      ensures countdown == old(countdown) && downloads == old(downloads)
      ensures var d := DepsOf(downloadUrl, old(autoStarted), watchesAutoStarted);
        old(lastDeps) == Some(d) ==>
          autoStarted == old(autoStarted) && intervalOn == old(intervalOn) && timerOn == old(timerOn)
          && lastDeps == old(lastDeps)
      ensures var d := DepsOf(downloadUrl, old(autoStarted), watchesAutoStarted);
        old(lastDeps) != Some(d) ==>
          lastDeps == Some(d)
          && (downloadUrl.Some? && !old(autoStarted) ==> autoStarted && intervalOn && timerOn)
          && (downloadUrl.None? || old(autoStarted) ==> autoStarted == old(autoStarted) && !intervalOn && !timerOn)
    {
      var d := DepsOf(downloadUrl, autoStarted, watchesAutoStarted);
      if lastDeps == Some(d) { return; }
      intervalOn, timerOn := false, false;
      lastDeps := Some(d);
      if downloadUrl.None? || autoStarted { return; }
      autoStarted := true;
      intervalOn, timerOn := true, true;
    }

    /** One second of the interval, while it is set. */
    method OnTick()
      requires Valid()
      modifies this
      ensures Valid()
      ensures countdown == (if old(intervalOn) then Tick(old(countdown)) else old(countdown))
      ensures autoStarted == old(autoStarted) && intervalOn == old(intervalOn) && timerOn == old(timerOn)
        && downloads == old(downloads) && lastDeps == old(lastDeps)
    {
      if intervalOn {
        countdown := Tick(countdown);
      }
    }

    /** Three seconds after the effect ran: the timeout, if still set,
        starts the download once. */
    method OnTimeout()
      requires Valid()
      modifies this
      ensures Valid()
      ensures downloads == old(downloads) + (if old(timerOn) then 1 else 0) && !timerOn
      ensures countdown == old(countdown) && autoStarted == old(autoStarted) && intervalOn == old(intervalOn)
        && lastDeps == old(lastDeps)
    {
      if timerOn {
        downloads := downloads + 1;
        timerOn := false;
      }
    }
  }

  /** The page as written, with a download URL: the first commit starts
      the countdown, and its `setAutoStarted(true)` commits the page
      again. Since `autoStarted` is a dependency, the effect runs again:
      the cleanup clears the interval and the timeout, and the new run
      returns at once. Three seconds later the count still shows 3 and no
      download has started. */
  method AsWrittenRun(url: string) returns (count: int, downloads: nat, pending: bool)
    ensures count == 3 && downloads == 0 && !pending
  {
    var c := new Countdown(true);
    c.Commit(Some(url));
    c.Commit(Some(url));
    c.OnTick();
    c.OnTick();
    c.OnTick();
    c.OnTimeout();
    return c.countdown, c.downloads, c.intervalOn || c.timerOn;
  }

  /** The corrected page, whose effect lists only `[downloadUrl]`: the
      second commit has the same dependencies, so the interval and the
      timeout stay set; after three seconds the count is 0 and the
      download has started exactly once. */
  method CorrectedRun(url: string) returns (count: int, downloads: nat)
    ensures count == 0 && downloads == 1
  {
    var c := new Countdown(false);
    c.Commit(Some(url));
    c.Commit(Some(url));
    c.OnTick();
    c.OnTick();
    c.OnTick();
    c.OnTimeout();
    c.OnTimeout();
    return c.countdown, c.downloads;
  }
}
