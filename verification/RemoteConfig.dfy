/**
 The server-driven startup config (`internal/remoteconfig/fetcher.go`): live,
 then cache, then baked-in; the cache file is written to a temp file and
 renamed.  One process at a time writes the cache.
 */
module RemoteConfig {
  import opened Common

  /** `others` stands for the fields no check looks at. */
  datatype Config = Config(schemaVersion: int, baseUrl: string, publishableKey: string, others: int)

  /**
   Bytes of a file or response: the JSON of a config (which decodes to it
   again), or something that does not decode.
   */
  datatype Bytes = Json(config: Config) | Broken

  /** The compiled-in config; that its URL and key are not empty is all that matters here. */
  const BAKED_IN: Config := Config(1, "baked-in URL", "baked-in key", 0)

  predicate Usable(c: Config) { c.schemaVersion == 1 && c.baseUrl != "" && c.publishableKey != "" }

  /** fetchLive on a response body, None when there is none. */
  function Accept(response: Option<Bytes>): Option<Config> {
    match response
    case Some(Json(c)) =>
      if c.schemaVersion != 1 then None
      else if c.baseUrl == "" || c.publishableKey == "" then None
      else Some(c)
    case _ => None
  }

  /** readCache: only the schema version is checked. */
  function ReadBack(cache: Option<Bytes>): Option<Config> {
    match cache
    case Some(Json(c)) => if c.schemaVersion != 1 then None else Some(c)
    case _ => None
  }

  /** The cache holds one of the responses that were accepted. */
  predicate Took(responses: seq<Option<Bytes>>, cache: Option<Bytes>) {
    exists i :: 0 <= i < |responses| && Accept(responses[i]).Some? && cache == Some(Json(Accept(responses[i]).value))
  }

  /** A response is accepted exactly if it decodes with schema version 1, a URL and a key, and then as it is. */
  lemma AcceptExact(response: Option<Bytes>, c: Config)
    ensures Accept(response) == Some(c) <==>
              response == Some(Json(c)) && c.schemaVersion == 1 && c.baseUrl != "" && c.publishableKey != ""
    ensures ReadBack(response) == Some(c) <==> response == Some(Json(c)) && c.schemaVersion == 1
  {
  }

  // ----- the fetcher -----

  datatype Source = Live | Cache | BakedIn

  class Fetcher {
    var cache: Option<Bytes>
    var tmp: Option<Bytes>

    constructor ()
      ensures Valid() && cache == None
    {
      cache, tmp := None, None;
    }

    /** The cache file does not exist or holds a config that was once accepted live. */
    ghost predicate Valid()
      reads this
    {
      cache.Some? ==> cache.value.Json? && Usable(cache.value.config)
    }

    /** writeCache.  Any step may fail, and the process may crash after any step. */
    method WriteCache(c: Config) returns (ok: bool, crashed: bool)
      modifies this
      ensures old(Valid()) && Usable(c) ==> Valid()
      ensures ok ==> cache == Some(Json(c))
      ensures !ok ==> cache == old(cache) || (crashed && cache == Some(Json(c)))
    {
      ok := false;
      var directory: bool := *;
      crashed := *;
      if !directory || crashed {
        return;
      }
      tmp := Some(Broken);
      var written: bool := *;
      crashed := *;
      if !written || crashed {
        return;
      }
      tmp := Some(Json(c));
      var renamed: bool := *;
      crashed := *;
      if !renamed || crashed {
        return;
      }
      cache, tmp := tmp, None;
      crashed := *;
      ok := !crashed;
    }

    /**
     Load: live beats cache beats baked-in.  Since readCache looks at the schema
     version only, the config is usable exactly if the endpoint's answer was
     accepted, the cache gave nothing, or what it gave has a URL and a key; with
     a cache that only writeCache writes, it always is.
     */
    method Load(response: Option<Bytes>) returns (c: Config, source: Source, crashed: bool)
      modifies this
      ensures old(Valid()) ==> Valid() && (!crashed ==> Usable(c))
      ensures !crashed ==>
                (Usable(c) <==>
                  || Accept(response).Some? || ReadBack(old(cache)).None?
                  || (ReadBack(old(cache)).value.baseUrl != "" && ReadBack(old(cache)).value.publishableKey != ""))
      ensures !crashed ==>
                (source == Live <==>
                  && response.Some? && response.value.Json?
                  && response.value.config.schemaVersion == 1
                  && response.value.config.baseUrl != "" && response.value.config.publishableKey != "")
      ensures !crashed ==> (source == Live <==> Accept(response).Some?)
      ensures !crashed && source == Live ==>
                Accept(response) == Some(c) && (cache == old(cache) || cache == Some(Json(c)))
      ensures !crashed ==> (source == Cache <==> Accept(response).None? && ReadBack(old(cache)).Some?)
      ensures !crashed && source == Cache ==> old(cache) == Some(Json(c)) && cache == old(cache)
      ensures !crashed && source == BakedIn ==> c == BAKED_IN && cache == old(cache)
    {
      crashed := false;
      var live := Accept(response);
      if live.Some? {
        c, source := live.value, Live;
        var _, died := WriteCache(live.value);
        crashed := died;
        return;
      }
      var cached := ReadBack(cache);
      if cached.Some? {
        return cached.value, Cache, false;
      }
      return BAKED_IN, BakedIn, false;
    }

    /** RefreshLoop over a sequence of ticks, each with the response it gets; it keeps the cache sound and warm. */
    method RefreshLoop(responses: seq<Option<Bytes>>) returns (crashed: bool)
      requires Valid()
      modifies this
      ensures Valid()
      ensures cache == old(cache) || Took(responses, cache)
    {
      crashed := false;
      for i := 0 to |responses|
        invariant Valid()
        invariant cache == old(cache) || Took(responses[..i], cache)
      {
        var live := Accept(responses[i]);
        if live.Some? {
          var _, died := WriteCache(live.value);
          if died {
            return true;
          }
        }
      }
    }
  }

  // ----- every run, with a crash between any two file operations -----

  /** Where the writer stands. */
  datatype Stage = Idle | Fetched(config: Config) | TmpOpen(config: Config) | TmpWritten(config: Config)

  /** Down, inside Load, or running on the config Load returned. */
  datatype Phase = Down | Loading | Running(active: Config)

  /** `last` is the live config of the last completed write, if any. */
  datatype State = State(cache: Option<Bytes>, tmp: Option<Bytes>, phase: Phase, stage: Stage, last: Option<Config>)

  datatype Action =
    | Boot
    | Fetch(response: Option<Bytes>)
    | OpenTmp
    | WriteTmp
    | Rename
    | WriteError
    | Crash

  predicate Enabled(s: State, a: Action) {
    match a
    case Boot => s.phase.Down?
    case Fetch(_) => !s.phase.Down? && s.stage.Idle?
    case OpenTmp => s.stage.Fetched?
    case WriteTmp => s.stage.TmpOpen?
    case Rename => s.stage.TmpWritten? && s.tmp.Some?
    case WriteError => !s.stage.Idle?
    case Crash => !s.phase.Down?
  }

  /** After the write of a live config, done or failed, Load returns that config; the loop just goes on. */
  function Written(s: State): State
    requires !s.stage.Idle?
  {
    s.(stage := Idle, phase := if s.phase.Loading? then Running(s.stage.config) else s.phase)
  }

  function Do(s: State, a: Action): State
    requires Enabled(s, a)
  {
    match a
    case Boot => s.(phase := Loading)
    case Fetch(response) =>
      var live := Accept(response);
      if live.Some? then s.(stage := Fetched(live.value))
      else if s.phase.Loading? then
        var cached := ReadBack(s.cache);
        s.(phase := Running(if cached.Some? then cached.value else BAKED_IN))
      else s
    case OpenTmp => s.(tmp := Some(Broken), stage := TmpOpen(s.stage.config))
    case WriteTmp => s.(tmp := Some(Json(s.stage.config)), stage := TmpWritten(s.stage.config))
    case Rename => Written(s.(cache := s.tmp, tmp := None, last := Some(s.stage.config)))
    case WriteError => Written(s)
    case Crash => s.(phase := Down, stage := Idle)
  }

  ghost predicate Next(s: State, s': State) { exists a :: Enabled(s, a) && s' == Do(s, a) }

  predicate Init(s: State) { s.cache.None? && s.phase.Down? && s.stage.Idle? && s.last.None? }

  ghost predicate StepAt(run: seq<State>, i: nat)
    requires i + 1 < |run|
  {
    Next(run[i], run[i + 1])
  }

  ghost predicate IsRun(run: seq<State>) {
    run != [] && Init(run[0]) && forall i :: 0 <= i < |run| - 1 ==> StepAt(run, i)
  }

  predicate Inv(s: State) {
    && s.cache == (if s.last.Some? then Some(Json(s.last.value)) else None)
    && (s.last.Some? ==> Usable(s.last.value))
    && (!s.stage.Idle? ==> Usable(s.stage.config) && !s.phase.Down?)
    && (s.stage.TmpWritten? ==> s.tmp == Some(Json(s.stage.config)))
    && (s.phase.Running? ==> Usable(s.phase.active))
  }

  lemma StepKeeps(s: State, a: Action)
    requires Inv(s) && Enabled(s, a)
    ensures Inv(Do(s, a))
  {
  }

  /**
   In every run, whatever the endpoint answers and wherever crashes fall, the
   agent runs on a config with schema version 1 and non-empty URL and key; the
   cache file is never torn, and holds the last live config whose write
   completed.
   */
  lemma {:induction false} ConfigAlwaysUsable(run: seq<State>, i: nat)
    requires IsRun(run) && i < |run|
    ensures run[i].phase.Running? ==>
              var c := run[i].phase.active;
              c.schemaVersion == 1 && c.baseUrl != "" && c.publishableKey != ""
    ensures run[i].cache == (if run[i].last.Some? then Some(Json(run[i].last.value)) else None)
    ensures Inv(run[i])
  {
    if i > 0 {
      ConfigAlwaysUsable(run, i - 1);
      assert StepAt(run, i - 1);
      var a :| Enabled(run[i - 1], a) && run[i] == Do(run[i - 1], a);
      StepKeeps(run[i - 1], a);
    }
  }
}
