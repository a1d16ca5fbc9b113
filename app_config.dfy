/** The start-up configuration of the HTTP server: the environment it runs
    in, the CORS whitelist and its origin callback, the label of the health
    endpoint and the decision to start or abort when the database is not
    configured or not reachable. */
module AppConfig {
  import opened Wrappers
  import opened Text
  import Models

  const DEFAULT_PORT: real := 5001.0

  /** The origins allowed when no list is configured. */
  const DEFAULT_ORIGINS: seq<string> := [
    "https://sineworg.com",
    "https://www.sineworg.com",
    "http://localhost:3000",
    "http://127.0.0.1:3000",
    "http://localhost:5173",
    "http://127.0.0.1:5173"
  ]

  /** `NODE_ENV`, lower-cased, "production" when unset. */
  function NodeEnv(raw: string): (r: string)
    ensures raw == "" ==> r == "production"
    ensures raw != "" ==> r == ToLower(raw)
    ensures ToLower(r) == r
  {
    ToLower(Or(raw, "production"))
  }

  /** `ALLOW_NO_DB`: true exactly for "true" in any letter case. */
  predicate AllowNoDb(raw: string)
  {
    ToLower(Or(raw, "false")) == "true"
  }

  lemma AllowNoDbMeaning(raw: string)
    ensures AllowNoDb(raw) <==> ToLower(raw) == "true"
    ensures !AllowNoDb("")
  {
    assert ToLower("false") != "true" by {
      assert ToLower("false")[0] == 'f';
    }
  }

  /** `PORT`, 5001 when unset. */
  function Port(raw: string, number: string -> Num): (r: Num)
    ensures raw == "" ==> r == Finite(DEFAULT_PORT)
  {
    if raw == "" then Finite(DEFAULT_PORT) else number(raw)
  }

  /** `.map(s => s.trim())`. */
  function TrimAll(parts: seq<string>): (r: seq<string>)
    ensures |r| == |parts|
    ensures forall i | 0 <= i < |parts| :: r[i] == Trim(parts[i])
  {
    seq(|parts|, i requires 0 <= i < |parts| => Trim(parts[i]))
  }

  /** `.filter(Boolean)` on strings, keeping the order. */
  function DropEmpty(xs: seq<string>): (r: seq<string>)
    ensures forall x | x in r :: x in xs && x != ""
    ensures forall x | x in xs && x != "" :: x in r
    ensures |r| <= |xs|
  {
    if |xs| == 0 then []
    else if xs[0] == "" then DropEmpty(xs[1..])
    else [xs[0]] + DropEmpty(xs[1..])
  }

  /** `CORS_ORIGINS`: split on commas, each entry trimmed, empty entries
      dropped. */
  function ParseCorsOrigins(raw: string): (r: seq<string>)
    ensures forall x | x in r :: x != "" && Trim(x) == x && ',' !in x
    ensures forall p | p in Split(raw, ',') :: Trim(p) != "" ==> Trim(p) in r
    ensures forall x | x in r :: exists p | p in Split(raw, ',') :: x == Trim(p)
  {
    var parts := Split(raw, ',');
    var trimmed := TrimAll(parts);
    var r := DropEmpty(trimmed);
    assert forall x | x in r :: Trim(x) == x && ',' !in x by {
      forall x | x in r ensures Trim(x) == x && ',' !in x {
        var j :| 0 <= j < |trimmed| && trimmed[j] == x;
        TrimIdempotent(parts[j]);
        Models.TrimIsSlice(parts[j]);
      }
    }
    assert forall x | x in r :: exists p | p in parts :: x == Trim(p) by {
      forall x | x in r ensures exists p | p in parts :: x == Trim(p) {
        var j :| 0 <= j < |trimmed| && trimmed[j] == x;
        assert parts[j] in parts;
      }
    }
    assert forall p | p in parts :: Trim(p) in trimmed by {
      forall p | p in parts ensures Trim(p) in trimmed {
        var j :| 0 <= j < |parts| && parts[j] == p;
        assert trimmed[j] == Trim(p);
      }
    }
    r
  }

  /** An unset `CORS_ORIGINS` parses to nothing. */
  lemma ParseEmptyIsEmpty()
    ensures ParseCorsOrigins("") == []
  {
    assert Split("", ',') == [""];
  }

  /** The whitelist: the configured list when it has an entry, else the
      defaults. */
  function AllowedOrigins(raw: string): (r: seq<string>)
    ensures |ParseCorsOrigins(raw)| > 0 ==> r == ParseCorsOrigins(raw)
    ensures |ParseCorsOrigins(raw)| == 0 ==> r == DEFAULT_ORIGINS
    ensures |r| > 0
  {
    var parsed := ParseCorsOrigins(raw);
    if |parsed| > 0 then parsed else DEFAULT_ORIGINS
  }

  lemma UnsetUsesDefaults()
    ensures AllowedOrigins("") == DEFAULT_ORIGINS
  {
    ParseEmptyIsEmpty();
  }

  /** What the origin callback answers: `callback(null, true)` or
      `callback(null, false)`. It never passes an error. */
  datatype CorsDecision = AllowOrigin | RefuseOrigin

  /** The origin callback: a request without `Origin` (curl, server to
      server) and a whitelisted origin are allowed. */
  function OriginDecision(origin: string, allowed: seq<string>): (d: CorsDecision)
    ensures d == AllowOrigin <==> origin == "" || origin in allowed
  {
    if origin == "" then AllowOrigin
    else if origin in allowed then AllowOrigin
    else RefuseOrigin
  }

  /** The label the health endpoint gives the driver's `readyState`. */
  function DbStateLabel(state: int): (r: string)
    ensures r in {"connected", "connecting", "not_connected"}
    ensures r == "connected" <==> state == 1
    ensures r == "connecting" <==> state == 2
  {
    if state == 1 then "connected" else if state == 2 then "connecting" else "not_connected"
  }

  datatype Boot = Listen(withDb: bool) | Connect | Abort

  /** Whether the server may listen without a database. */
  predicate MayRunWithoutDb(allowNoDb: bool, nodeEnv: string)
  {
    allowNoDb || nodeEnv == "development"
  }

  /** The start-up decision before connecting. */
  function Startup(mongoUri: string, allowNoDb: bool, nodeEnv: string): (b: Boot)
    ensures mongoUri != "" ==> b == Connect
    ensures mongoUri == "" ==> (b == Abort <==> !MayRunWithoutDb(allowNoDb, nodeEnv))
    ensures b != Listen(true)
  {
    if mongoUri != "" then Connect
    else if !MayRunWithoutDb(allowNoDb, nodeEnv) then Abort
    else Listen(false)
  }

  /** The decision once the connection attempt settles. */
  function AfterConnect(connected: bool, allowNoDb: bool, nodeEnv: string): (b: Boot)
    ensures connected ==> b == Listen(true)
    ensures !connected ==> (b == Abort <==> !MayRunWithoutDb(allowNoDb, nodeEnv))
    ensures b != Connect
  {
    if connected then Listen(true)
    else if !MayRunWithoutDb(allowNoDb, nodeEnv) then Abort
    else Listen(false)
  }

  /** In production, with the default environment, the server never
      listens without a database. */
  lemma ProductionNeedsDb(mongoUri: string, connected: bool)
    ensures var env := NodeEnv("");
      Startup(mongoUri, AllowNoDb(""), env) != Listen(false)
      && AfterConnect(connected, AllowNoDb(""), env) != Listen(false)
  {
    AllowNoDbMeaning("");
    assert NodeEnv("") == "production";
  }
}
