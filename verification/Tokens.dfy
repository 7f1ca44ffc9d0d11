/**
 The life of a refresh token: rotated at the server, then on disk, then in
 memory (`internal/supabase/client.go`, `persistRefreshTo` in
 `internal/runtime/runtime.go`), with a crash possible between any two steps.
 A start rewrites config.yml in place before it reads the token
 (`cmd/proxmoxvue-agent/main.go`), and again if it has to make a key
 (`internal/keysync/keysync.go`).

 Refreshes do not overlap here; `Overlap` says what happens when they do.
 Tokens are numbered in the order the server issues them; presenting any but the
 last is refused as already used.
 */
module Tokens {
  import opened Common
  import opened ConfigFile

  type Token = nat

  datatype Config = Config(refreshToken: Token, privateKey: string, settings: Settings)

  predicate HasKey(c: Config) { c.privateKey != "" }

  /** Tokens as text: any non-empty texts, different for different tokens, would do. */
  function TokenText(t: Token): (s: string)
    ensures s != "" && |s| == t + 1
  {
    seq(t + 1, _ => 't')
  }

  function Text(c: Config): Fields { Fields(TokenText(c.refreshToken), c.privateKey, c.settings) }

  function Filled(c: Config): Config { c.(settings := WithDefaults(c.settings)) }

  /** What a start reads of a config cut while it was being saved, None if it reads none that it accepts. */
  function Left(c: Config, cut: Cut): (l: Option<Config>)
    requires IsCut(Text(c), cut)
    ensures l.Some? <==> Validates(Text(c)) && ReachesSecret(Text(c), cut)
    ensures l.Some? ==>
              && Load(Text(c), cut) == Some(Text(l.value)) && Validates(Text(l.value))
              && l.value.refreshToken == c.refreshToken && l.value.privateKey == c.privateKey
              && Shortened(l.value.settings, c.settings)
  {
    CutStarts(Text(c), cut);
    if Starts(Text(c), cut) then Some(c.(settings := Load(Text(c), cut).value.settings)) else None
  }

  /** config.yml: complete, or cut short while it was being rewritten in place, with what a start reads of it. */
  datatype File = Whole(config: Config) | Torn(left: Option<Config>)

  /** What a start, or the reload before a persist, reads. */
  function Loaded(f: File): Option<Config> { if f.Whole? then Some(f.config) else f.left }

  /** Where a refresh stands. */
  datatype Stage =
    | Quiet
    | Posting                                 // POST sent, not yet served
    | Rotated                                 // served: the answer is on its way
    | Received(issued: Token)                 // answer read
    | Reloaded(issued: Token, file: Config)    // persist: config.yml read back
    | TempSaved(issued: Token, file: Config)   // persist: temp file complete
    | Renamed(issued: Token)                   // persist: temp file renamed over config.yml

  /**
   Where the process stands: defaults filled in, config.yml being rewritten with
   them, Start about to read it, the first refresh, the key auto-heal, the
   running agent.
   */
  datatype Phase = Filling | Rewriting | Reading | Pinging | NeedKey | SavingKey | Running

  predicate Starting(p: Phase) { p.Filling? || p.Rewriting? || p.Reading? }

  datatype Process =
    | Down
    | Up(memory: Token, loaded: Config, phase: Phase, stage: Stage)

  datatype State = State(server: Token, disk: File, process: Process)

  datatype Action =
    | Boot
    | BeginRewrite(cut: Cut)              // Save truncates config.yml; `cut` is where a crash would cut it
    | EndRewrite
    | RewriteFails                        // the write fails and is passed over
    | StartLoads
    | BeginRefresh
    | Serve                               // the server accepts the token and rotates it
    | Revoke                              // the server refuses a used token: ErrRefreshRevoked
    | ServerError                         // any other failure that rotates nothing
    | Arrive
    | LoseAnswer                          // transport error, timeout, undecodable answer
    | Reload
    | SaveTemp
    | PersistError                        // any step of persist up to and including the rename fails
    | Rename
    | Store
    | BeginKeySave(key: string, keyCut: Cut)
    | EndKeySave
    | Crash                               // or an exit

  predicate Enabled(s: State, a: Action) {
    match s.process
    case Down => a.Boot? && Loaded(s.disk).Some? && LevelOk(Loaded(s.disk).value.settings)
    case Up(memory, loaded, phase, stage) =>
      match a
      case Boot => false
      case BeginRewrite(cut) => phase.Filling? && IsCut(Text(loaded), cut)
      case EndRewrite => phase.Rewriting?
      case RewriteFails => phase.Filling? || phase.Rewriting?
      case StartLoads => phase.Reading? && Loaded(s.disk).Some?
      case BeginRefresh => stage.Quiet? && (phase.Pinging? || phase.Running?)
      case Serve => stage.Posting? && memory == s.server
      case Revoke => stage.Posting? && memory != s.server
      case ServerError => stage.Posting?
      case Arrive => stage.Rotated?
      case LoseAnswer => stage.Rotated?
      case Reload => stage.Received? && Loaded(s.disk).Some?
      case SaveTemp => stage.Reloaded?
      case PersistError => stage.Received? || stage.Reloaded? || stage.TempSaved?
      case Rename => stage.TempSaved?
      case Store => stage.Renamed?
      case BeginKeySave(key, cut) => phase.NeedKey? && key != "" && IsCut(Text(loaded.(privateKey := key)), cut)
      case EndKeySave => phase.SavingKey?
      case Crash => true
  }

  /** A refresh that returns an error: Start gives up if it was the first one. */
  function Abort(s: State): State
    requires s.process.Up?
  {
    s.(process := if s.process.phase.Pinging? then Down else s.process.(stage := Quiet))
  }

  function At(s: State, stage: Stage): State
    requires s.process.Up?
  {
    s.(process := s.process.(stage := stage))
  }

  function In(s: State, phase: Phase): State
    requires s.process.Up?
  {
    s.(process := s.process.(phase := phase))
  }

  /** A process that holds this config and its token. */
  function Holding(c: Config, phase: Phase): Process { Up(c.refreshToken, c, phase, Quiet) }

  function Do(s: State, a: Action): State
    requires Enabled(s, a)
  {
    match a
    case Boot => s.(process := Holding(Filled(Loaded(s.disk).value), Filling))
    case BeginRewrite(cut) => In(s, Rewriting).(disk := Torn(Left(s.process.loaded, cut)))
    case EndRewrite => In(s, Reading).(disk := Whole(s.process.loaded))
    case RewriteFails => In(s, Reading)
    case StartLoads => s.(process := Holding(Loaded(s.disk).value, Pinging))
    case BeginRefresh => At(s, Posting)
    case Serve => At(s, Rotated).(server := s.server + 1)
    case Revoke => Abort(s)
    case ServerError => Abort(s)
    case Arrive => At(s, Received(s.server))
    case LoseAnswer => Abort(s)
    case Reload => At(s, Reloaded(s.process.stage.issued, Loaded(s.disk).value))
    case SaveTemp =>
      At(s, TempSaved(s.process.stage.issued, s.process.stage.file.(refreshToken := s.process.stage.issued)))
    case PersistError => Abort(s)
    case Rename => At(s, Renamed(s.process.stage.issued)).(disk := Whole(s.process.stage.file))
    case Store =>
      var p := s.process;
      s.(process := p.(memory := p.stage.issued, stage := Quiet,
                       phase := if p.phase.Running? || HasKey(p.loaded) then Running else NeedKey))
    case BeginKeySave(key, cut) =>
      var saved := s.process.loaded.(privateKey := key);
      s.(disk := Torn(Left(saved, cut)), process := s.process.(loaded := saved, phase := SavingKey))
    case EndKeySave => In(s, Running).(disk := Whole(s.process.loaded))
    case Crash => s.(process := Down)
  }

  ghost predicate Next(s: State, s': State) { exists a :: Enabled(s, a) && s' == Do(s, a) }

  /** An enrolled agent that is not running: the disk holds the server's token in a config that starts. */
  predicate Init(s: State) {
    && s.process.Down? && s.disk.Whole? && s.disk.config.refreshToken == s.server
    && Validates(Text(s.disk.config)) && LevelOk(s.disk.config.settings)
  }

  ghost predicate StepAt(run: seq<State>, i: nat)
    requires i + 1 < |run|
  {
    Next(run[i], run[i + 1])
  }

  ghost predicate IsRun(run: seq<State>) {
    run != [] && Init(run[0]) && forall i :: 0 <= i < |run| - 1 ==> StepAt(run, i)
  }

  // ----- who holds the server's token -----

  predicate OnDisk(s: State, t: int) { Loaded(s.disk).Some? && Loaded(s.disk).value.refreshToken == t }

  /** Between the rotation at the server and the rename on disk. */
  predicate InGap(s: State) {
    && s.process.Up?
    && var g := s.process.stage;
       g.Rotated? || g.Received? || g.Reloaded? || g.TempSaved?
  }

  predicate RewritingNow(s: State) { s.process.Up? && s.process.phase.Rewriting? }

  /** A start is writing the server's token back to config.yml. */
  predicate RewritingIt(s: State) { RewritingNow(s) && s.process.loaded.refreshToken == s.server }

  /** Start or the running agent has the server's token in memory. */
  predicate Remembered(s: State) { s.process.Up? && !Starting(s.process.phase) && s.process.memory == s.server }

  predicate OnlyInMemory(s: State) { Remembered(s) && !OnDisk(s, s.server) }

  /** The session is lost: nobody holds the server's current token and nobody is about to write it. */
  predicate Lost(s: State) { !OnDisk(s, s.server) && !InGap(s) && !RewritingIt(s) && !Remembered(s) }

  predicate AnyInv(s: State) {
    && (Loaded(s.disk).Some? ==> Loaded(s.disk).value.refreshToken <= s.server && Validates(Text(Loaded(s.disk).value)))
    && (s.process.Up? ==> ProcessOk(s, s.process))
  }

  /** What the tokens of a process have to do with the server's and with config.yml. */
  predicate ProcessOk(s: State, p: Process)
    requires p.Up?
  {
    && Validates(Text(p.loaded)) && p.loaded.refreshToken <= s.server && p.memory <= s.server
    && (p.stage.Reloaded? ==> Validates(Text(p.stage.file)))
    && (p.stage.TempSaved? ==> Validates(Text(p.stage.file)) && p.stage.file.refreshToken == s.server)
    && (p.stage.Received? || p.stage.Reloaded? || p.stage.TempSaved? || p.stage.Renamed? ==> p.stage.issued == s.server)
    && (p.stage.Renamed? ==> OnDisk(s, s.server) && p.memory < s.server)
    && (InGap(s) ==> !OnDisk(s, s.server) && p.memory < s.server)
    && match p.phase
       case Filling => p.stage.Quiet? && OnDisk(s, p.loaded.refreshToken)
       case Rewriting => p.stage.Quiet? && (Loaded(s.disk).Some? ==> OnDisk(s, p.loaded.refreshToken))
       case Reading => p.stage.Quiet?
       case Pinging => p.loaded.refreshToken == p.memory && (!p.stage.Renamed? ==> OnDisk(s, p.memory))
       case NeedKey => p.stage.Quiet? && p.loaded.refreshToken < s.server && p.memory == s.server
       case SavingKey =>
         && p.stage.Quiet? && p.loaded.refreshToken < s.server && p.memory == s.server
         && (Loaded(s.disk).Some? ==> OnDisk(s, p.loaded.refreshToken))
       case Running => !p.stage.Renamed? && OnDisk(s, s.server) ==> p.memory == s.server
  }

  /** The steps that put a config into config.yml, whole or cut short. */
  predicate Writes(a: Action) {
    a.BeginRewrite? || a.EndRewrite? || a.BeginKeySave? || a.EndKeySave? || a.Rename?
  }

  lemma WriteStep(s: State, a: Action)
    requires AnyInv(s) && Enabled(s, a) && Writes(a)
    ensures AnyInv(Do(s, a))
  {
  }

  lemma FailureStep(s: State, a: Action)
    requires AnyInv(s) && Enabled(s, a)
    requires a.Revoke? || a.ServerError? || a.LoseAnswer? || a.PersistError? || a.Crash?
    ensures AnyInv(Do(s, a))
  {
  }

  lemma PersistStep(s: State, a: Action)
    requires AnyInv(s) && Enabled(s, a) && (a.Reload? || a.SaveTemp? || a.Store?)
    ensures AnyInv(Do(s, a))
  {
  }

  lemma AnyStep(s: State, a: Action)
    requires AnyInv(s) && Enabled(s, a)
    ensures AnyInv(Do(s, a))
  {
    if a.Boot? {
      DefaultsKeep(Loaded(s.disk).value.settings);
    } else if Writes(a) {
      WriteStep(s, a);
    } else if a.Reload? || a.SaveTemp? || a.Store? {
      PersistStep(s, a);
    } else if a.Revoke? || a.ServerError? || a.LoseAnswer? || a.PersistError? || a.Crash? {
      FailureStep(s, a);
    }
  }

  lemma {:induction false} AnyRun(run: seq<State>, i: nat)
    requires IsRun(run) && i < |run|
    ensures AnyInv(run[i])
  {
    if i > 0 {
      AnyRun(run, i - 1);
      assert StepAt(run, i - 1);
      var a :| Enabled(run[i - 1], a) && run[i] == Do(run[i - 1], a);
      AnyStep(run[i - 1], a);
    }
  }

  // ----- how a session is lost -----

  /** The failures of a refresh that can lose a session. */
  predicate Failure(a: Action) { a.Crash? || a.LoseAnswer? || a.PersistError? }

  /**
   The steps that lose a session: a crash, lost answer or failed persist between
   rotation and rename; a crash or failed write in the rewrite at a start that
   leaves no config a start accepts; and a crash while, after a key was made,
   the token is in memory only.
   */
  predicate Loses(s: State, a: Action) {
    || (InGap(s) && Failure(a))
    || (RewritingIt(s) && (a.Crash? || a.RewriteFails?) && Loaded(s.disk).None?)
    || (OnlyInMemory(s) && a.Crash?)
  }

  /** In every run, these and no other steps lose the session. */
  lemma LosingSteps(run: seq<State>, i: nat, a: Action)
    requires IsRun(run) && i < |run| && Enabled(run[i], a) && !Lost(run[i])
    ensures Lost(Do(run[i], a)) <==> Loses(run[i], a)
  {
    AnyRun(run, i);
  }

  /**
   Between rotation and rename, a crash can always come, and so can a lost answer
   before it is read and a failed persist after.
   */
  lemma GapFailuresPossible(run: seq<State>, i: nat)
    requires IsRun(run) && i < |run| && InGap(run[i])
    ensures !Lost(run[i]) && Enabled(run[i], Crash) && Lost(Do(run[i], Crash))
    ensures Enabled(run[i], LoseAnswer) || Enabled(run[i], PersistError)
    ensures Enabled(run[i], LoseAnswer) ==> Lost(Do(run[i], LoseAnswer))
    ensures Enabled(run[i], PersistError) ==> Lost(Do(run[i], PersistError))
  {
    AnyRun(run, i);
  }

  /** A lost session stays lost: the server never accepts a refresh again, it answers ErrRefreshRevoked or fails. */
  lemma LostForever(run: seq<State>, i: nat, a: Action)
    requires IsRun(run) && i < |run| && Enabled(run[i], a) && Lost(run[i])
    ensures !a.Serve? && Lost(Do(run[i], a)) && Do(run[i], a).server == run[i].server
  {
    AnyRun(run, i);
  }

  /** And a session that is not lost is never refused: a refresh that reaches the server is accepted. */
  lemma AcceptedUnlessLost(run: seq<State>, i: nat)
    requires IsRun(run) && i < |run| && run[i].process.Up? && run[i].process.stage.Posting?
    ensures Enabled(run[i], Serve) <==> !Lost(run[i])
    ensures Enabled(run[i], Revoke) <==> Lost(run[i])
  {
    AnyRun(run, i);
  }

  /** Step j of the run is one that loses. */
  ghost predicate LosesAt(run: seq<State>, j: nat) {
    j + 1 < |run| && exists a :: Loses(run[j], a) && Enabled(run[j], a) && run[j + 1] == Do(run[j], a)
  }

  /** A losing step finds the session not lost. */
  lemma LosesFromHeld(s: State, a: Action)
    requires Loses(s, a)
    ensures !Lost(s)
  {
  }

  lemma LosesAtLoses(run: seq<State>, j: nat)
    requires IsRun(run) && LosesAt(run, j)
    ensures Lost(run[j + 1])
  {
    var a :| Loses(run[j], a) && Enabled(run[j], a) && run[j + 1] == Do(run[j], a);
    LosesFromHeld(run[j], a);
    LosingSteps(run, j, a);
  }

  /** A step loses the session, or keeps it lost, exactly if it was lost before or the step is one that loses. */
  lemma LostAfter(run: seq<State>, j: nat)
    requires IsRun(run) && j + 1 < |run|
    ensures Lost(run[j + 1]) <==> Lost(run[j]) || LosesAt(run, j)
  {
    assert StepAt(run, j);
    var a :| Enabled(run[j], a) && run[j + 1] == Do(run[j], a);
    if Lost(run[j]) { LostForever(run, j, a); }
    else { LosingSteps(run, j, a); }
    if LosesAt(run, j) { LosesAtLoses(run, j); }
  }

  /** In every run, the session is lost at some point exactly if some step before it was one that loses. */
  lemma {:induction false} LostIffLosingStep(run: seq<State>, i: nat)
    requires IsRun(run) && i < |run|
    ensures Lost(run[i]) <==> exists j :: 0 <= j < i && LosesAt(run, j)
  {
    if i > 0 {
      LostIffLosingStep(run, i - 1);
      LostAfter(run, i - 1);
      assert LosesAt(run, i - 1) ==> exists j :: 0 <= j < i && LosesAt(run, j);
    }
  }

  // ----- runs that start from a config with a key -----

  /** A config as it was first, up to its token and what a cut in a rewrite may have taken. */
  predicate Kept(c: Config, first: Config) {
    c.privateKey == first.privateKey && Shortened(c.settings, first.settings)
  }

  predicate KeyedInv(s: State, first: Config) {
    && HasKey(first)
    && (Loaded(s.disk).Some? ==>
          Kept(Loaded(s.disk).value, first) && Loaded(s.disk).value.refreshToken >= s.server - 1)
    && (s.process.Up? ==>
          var p := s.process;
          && Kept(p.loaded, first) && !p.phase.NeedKey? && !p.phase.SavingKey?
          && (p.stage.Reloaded? || p.stage.TempSaved? ==> Kept(p.stage.file, first))
          && (p.phase.Filling? || p.phase.Rewriting? ==> p.loaded.refreshToken >= s.server - 1)
          && (!Starting(p.phase) ==>
                && Loaded(s.disk).Some?
                && (!p.stage.Renamed? ==> OnDisk(s, p.memory))))
  }

  lemma KeyedStep(s: State, a: Action, first: Config)
    requires AnyInv(s) && KeyedInv(s, first) && Enabled(s, a)
    ensures KeyedInv(Do(s, a), first)
  {
    if a.Boot? { DefaultsKeep(Loaded(s.disk).value.settings); }
  }

  lemma {:induction false} KeyedRun(run: seq<State>, i: nat)
    requires IsRun(run) && HasKey(run[0].disk.config) && i < |run|
    ensures AnyInv(run[i]) && KeyedInv(run[i], run[0].disk.config)
  {
    AnyRun(run, i);
    if i > 0 {
      KeyedRun(run, i - 1);
      assert StepAt(run, i - 1);
      var a :| Enabled(run[i - 1], a) && run[i] == Do(run[i - 1], a);
      KeyedStep(run[i - 1], a, run[0].disk.config);
    }
  }

  /**
   The refresh-token chain.  In every reachable state, so at every point where a
   crash can fall, the disk holds the server's current token or the one before
   it, unless a start is just rewriting it or the session is lost; and whatever
   it holds has the first config's key, cluster and Proxmox address, and its
   secret up to a cut.  Outside a refresh, unless the session is lost, memory,
   disk and server agree, so the token is never in memory only.
   */
  lemma TokenChain(run: seq<State>, i: nat)
    requires IsRun(run) && HasKey(run[0].disk.config) && i < |run|
    ensures var s := run[i];
            && (|| OnDisk(s, s.server) || OnDisk(s, s.server - 1)
                || (Loaded(s.disk).None? && (RewritingNow(s) || Lost(s))))
            && (Loaded(s.disk).Some? ==>
                  var now, first := Loaded(s.disk).value, run[0].disk.config;
                  && now.privateKey == first.privateKey && now.settings.clusterId == first.settings.clusterId
                  && now.settings.apiUrl == first.settings.apiUrl && now.settings.tokenId == first.settings.tokenId
                  && now.settings.tokenSecret <= first.settings.tokenSecret)
            && (s.process.Up? && s.process.stage.Quiet? && !Starting(s.process.phase) && !Lost(s) ==>
                  s.process.memory == s.server && OnDisk(s, s.server))
            && (s.process.Down? && !Lost(s) ==> OnDisk(s, s.server))
            && !OnlyInMemory(s)
  {
    KeyedRun(run, i);
  }

  /** Step j leaves a cut file that a start accepts: a crash or failed write in the rewrite. */
  ghost predicate SurvivesAt(run: seq<State>, j: nat) {
    && j + 1 < |run| && RewritingNow(run[j]) && Loaded(run[j].disk).Some?
    && run[j + 1].disk == run[j].disk
  }

  /** The first settings, before or after the defaults were filled in. */
  predicate Intact(s: Settings, first: Settings) { s == first || s == WithDefaults(first) }

  predicate IntactInv(s: State, first: Settings) {
    && (s.disk.Whole? ==> Intact(s.disk.config.settings, first))
    && (s.disk.Torn? ==> RewritingNow(s) || s.disk.left.None?)
    && (s.process.Up? ==>
          && Intact(s.process.loaded.settings, first)
          && (s.process.stage.Reloaded? || s.process.stage.TempSaved? ==> Intact(s.process.stage.file.settings, first)))
  }

  /** Without a surviving cut, token and defaults are all that ever changes in config.yml. */
  lemma {:induction false} SettingsIntact(run: seq<State>, i: nat)
    requires IsRun(run) && HasKey(run[0].disk.config) && i < |run|
    requires forall j :: 0 <= j < i ==> !SurvivesAt(run, j)
    ensures IntactInv(run[i], run[0].disk.config.settings)
    ensures Loaded(run[i].disk).Some? && !RewritingNow(run[i]) ==>
              var now, first := Loaded(run[i].disk).value.settings, run[0].disk.config.settings;
              now == first || now == WithDefaults(first)
  {
    if i > 0 {
      SettingsIntact(run, i - 1);
      KeyedRun(run, i - 1);
      assert StepAt(run, i - 1) && !SurvivesAt(run, i - 1);
      var a :| Enabled(run[i - 1], a) && run[i] == Do(run[i - 1], a);
      DefaultsKeep(run[0].disk.config.settings);
      IntactStep(run[i - 1], a, run[0].disk.config.settings);
    }
  }

  lemma IntactStep(s: State, a: Action, first: Settings)
    requires IntactInv(s, first) && Enabled(s, a) && WithDefaults(WithDefaults(first)) == WithDefaults(first)
    requires s.process.Up? ==> !s.process.phase.NeedKey? && !s.process.phase.SavingKey?
    requires RewritingNow(s) && Loaded(s.disk).Some? ==> Do(s, a).disk != s.disk
    ensures IntactInv(Do(s, a), first)
  {
  }

  // ----- what a start does -----

  /** Performs actions in order as far as they are enabled. */
  function DoAll(s: State, acts: seq<Action>): Option<State>
    decreases |acts|
  {
    if acts == [] then Some(s)
    else if !Enabled(s, acts[0]) then None
    else DoAll(Do(s, acts[0]), acts[1..])
  }

  lemma Unroll(s: State, acts: seq<Action>, k: nat)
    requires k < |acts| && Enabled(s, acts[k])
    ensures DoAll(s, acts[k..]) == DoAll(Do(s, acts[k]), acts[k + 1..])
  {
    assert acts[k..][1..] == acts[k + 1..];
  }

  const STARTUP: seq<Action> := [Boot, BeginRewrite(EMPTY), EndRewrite, StartLoads]
  const REFRESH: seq<Action> := [BeginRefresh, Serve, Arrive, Reload, SaveTemp, Rename, Store]

  /** The actions of STARTUP, without the list: what the solver needs of it is each action by itself. */
  predicate LikeStartup(acts: seq<Action>) {
    && |acts| == 4
    && acts[0] == Boot && acts[1] == BeginRewrite(EMPTY) && acts[2] == EndRewrite && acts[3] == StartLoads
  }

  predicate LikeRefresh(acts: seq<Action>) {
    && |acts| == 7 && acts[0] == BeginRefresh && acts[1] == Serve && acts[2] == Arrive && acts[3] == Reload
    && acts[4] == SaveTemp && acts[5] == Rename && acts[6] == Store
  }

  predicate MayBoot(s: State) { s.process.Down? && Loaded(s.disk).Some? && LevelOk(Loaded(s.disk).value.settings) }

  lemma {:induction false} DoAllAppend(s: State, a: seq<Action>, b: seq<Action>)
    ensures DoAll(s, a + b) == match DoAll(s, a) case None => None case Some(m) => DoAll(m, b)
    decreases |a|
  {
    if a == [] {
      assert a + b == b;
    } else {
      assert (a + b)[1..] == a[1..] + b;
      if Enabled(s, a[0]) { DoAllAppend(Do(s, a[0]), a[1..], b); }
    }
  }

  lemma Composed(s: State, a: seq<Action>, t: State, b: seq<Action>, r: State)
    requires DoAll(s, a) == Some(t) && DoAll(t, b) == Some(r)
    ensures DoAll(s, a + b) == Some(r)
  {
    DoAllAppend(s, a, b);
  }

  /**
   An undisturbed start up to the first refresh: config.yml, even one that was
   cut, becomes a complete file with the same token and the defaults filled in.
   */
  lemma StartsUp(s: State, acts: seq<Action>)
    requires MayBoot(s) && LikeStartup(acts)
    ensures var c := Filled(Loaded(s.disk).value);
            DoAll(s, acts) == Some(State(s.server, Whole(c), Holding(c, Pinging)))
  {
    var c := Filled(Loaded(s.disk).value);
    var s1 := s.(process := Holding(c, Filling));
    var s2 := Do(s1, BeginRewrite(EMPTY));
    var s3 := State(s.server, Whole(c), Holding(c, Reading));
    assert acts[0..] == acts;
    Unroll(s, acts, 0);
    Unroll(s1, acts, 1);
    Unroll(s2, acts, 2);
    Unroll(s3, acts, 3);
    assert acts[4..] == [];
  }

  predicate MayRefresh(s: State) {
    && s.process.Up? && s.process.stage.Quiet? && s.process.memory == s.server && Loaded(s.disk).Some?
    && (s.process.phase.Pinging? || s.process.phase.Running?)
  }

  /** A refresh up to the reload of config.yml. */
  lemma RefreshReloads(s: State, acts: seq<Action>)
    requires MayRefresh(s) && LikeRefresh(acts)
    ensures DoAll(s, acts) ==
            DoAll(At(s, Reloaded(s.server + 1, Loaded(s.disk).value)).(server := s.server + 1), acts[4..])
  {
    var t := At(s, Rotated).(server := s.server + 1);
    assert acts[0..] == acts;
    Unroll(s, acts, 0);
    Unroll(At(s, Posting), acts, 1);
    Unroll(t, acts, 2);
    Unroll(At(t, Received(t.server)), acts, 3);
  }

  /** Where a refresh leaves the process. */
  function After(p: Process): Phase
    requires p.Up?
  {
    if p.phase.Running? || HasKey(p.loaded) then Running else NeedKey
  }

  /** The rest of a refresh. */
  lemma RefreshStores(s: State, acts: seq<Action>)
    requires s.process.Up? && s.process.stage.Reloaded? && LikeRefresh(acts)
    ensures var p := s.process;
            DoAll(s, acts[4..]) ==
            Some(State(s.server, Whole(p.stage.file.(refreshToken := p.stage.issued)),
                       Up(p.stage.issued, p.loaded, After(p), Quiet)))
  {
    var s5 := Do(s, SaveTemp);
    var s6 := Do(s5, Rename);
    Unroll(s, acts, 4);
    Unroll(s5, acts, 5);
    Unroll(s6, acts, 6);
    assert DoAll(Do(s6, Store), acts[7..]) == Some(Do(s6, Store));
  }

  /** What an undisturbed refresh leaves. */
  function Refreshed(s: State): State
    requires MayRefresh(s)
  {
    State(s.server + 1, Whole(Loaded(s.disk).value.(refreshToken := s.server + 1)),
          Up(s.server + 1, s.process.loaded, After(s.process), Quiet))
  }

  lemma RefreshRuns(s: State, acts: seq<Action>)
    requires MayRefresh(s) && LikeRefresh(acts)
    ensures DoAll(s, acts) == Some(Refreshed(s))
  {
    RefreshReloads(s, acts);
    RefreshStores(At(s, Reloaded(s.server + 1, Loaded(s.disk).value)).(server := s.server + 1), acts);
  }

  /** One undisturbed refresh, from any state in which memory holds the server's token, puts all three in step. */
  lemma RefreshHeals(s: State)
    requires MayRefresh(s)
    ensures DoAll(s, REFRESH).Some?
    ensures var r := DoAll(s, REFRESH).value;
            && r == Refreshed(s) && r.process.memory == r.server && OnDisk(r, r.server) && r.server == s.server + 1
  {
    RefreshRuns(s, REFRESH);
  }

  lemma BootRuns(s: State, up: seq<Action>, more: seq<Action>)
    requires Init(s) && LikeStartup(up) && LikeRefresh(more)
    ensures var c := Filled(s.disk.config);
            DoAll(s, up + more) == Some(Refreshed(State(s.server, Whole(c), Holding(c, Pinging))))
  {
    var c := Filled(s.disk.config);
    var t := State(s.server, Whole(c), Holding(c, Pinging));
    StartsUp(s, up);
    RefreshRuns(t, more);
    Composed(s, up, t, more, Refreshed(t));
  }

  /** What an undisturbed start and its first refresh leave. */
  lemma BootRefreshes(s: State)
    requires Init(s)
    ensures var c := Filled(s.disk.config);
            DoAll(s, STARTUP + REFRESH) ==
            Some(State(s.server + 1, Whole(c.(refreshToken := s.server + 1)),
                       Up(s.server + 1, c, if HasKey(c) then Running else NeedKey, Quiet)))
  {
    BootRuns(s, STARTUP, REFRESH);
  }

  /** A kill inside the rewrite of the very first start loses the session, although no refresh was ever under way. */
  lemma LostWithoutRefresh(s: State)
    requires Init(s)
    ensures var r := DoAll(s, [Boot, BeginRewrite(EMPTY), Crash]);
            r.Some? && Lost(r.value) && r.value.server == s.server && r.value.disk == Torn(None)
  {
    var acts := [Boot, BeginRewrite(EMPTY), Crash];
    var s1 := Do(s, Boot);
    var s2 := Do(s1, BeginRewrite(EMPTY));
    assert acts[0..] == acts;
    Unroll(s, acts, 0);
    Unroll(s1, acts, 1);
    Unroll(s2, acts, 2);
    assert acts[3..] == [];
    assert !ReachesSecret(Text(s1.process.loaded), EMPTY);
  }

  /** A cut config.yml that a start accepts is repaired by that start, with the token it holds, used or not. */
  lemma CutIsRepaired(s: State)
    requires MayBoot(s) && s.disk.Torn?
    ensures DoAll(s, STARTUP).Some?
    ensures var r := DoAll(s, STARTUP).value;
            && r.disk.Whole? && r.disk.config == Filled(s.disk.left.value)
            && r.disk.config.refreshToken == s.disk.left.value.refreshToken && (Lost(s) ==> Lost(r))
  {
    StartsUp(s, STARTUP);
  }

  // ----- a config without a key -----

  const NEW_KEY: string := "key"
  const HEAL_KEY: seq<Action> := [BeginKeySave(NEW_KEY, EMPTY), EndKeySave]

  /** The state of an agent once Start has reached its loop, if nothing goes wrong on the way. */
  ghost function Started(s: State): Option<State>
    requires Init(s)
  {
    DoAll(s, if HasKey(s.disk.config) then STARTUP + REFRESH else STARTUP + REFRESH + HEAL_KEY)
  }

  lemma KeyHeals(s: State)
    requires s.process.Up? && s.process.phase.NeedKey?
    ensures var c := s.process.loaded.(privateKey := NEW_KEY);
            DoAll(s, HEAL_KEY) ==
            Some(s.(disk := Whole(c), process := s.process.(loaded := c, phase := Running)))
  {
    var s1 := Do(s, BeginKeySave(NEW_KEY, EMPTY));
    assert HEAL_KEY[0..] == HEAL_KEY && HEAL_KEY[2..] == [];
    Unroll(s, HEAL_KEY, 0);
    Unroll(s1, HEAL_KEY, 1);
  }

  /**
   After an undisturbed start, memory holds the server's token, but the disk
   does exactly if config.yml already had a key: the key auto-heal writes back
   the config that was loaded before the first refresh.  A crash then loses the
   session.
   */
  lemma StartKeepsDiskIffKeyed(s: State)
    requires Init(s)
    ensures Started(s).Some?
    ensures var r := Started(s).value;
            && r.process.Up? && r.process.phase.Running? && r.process.stage.Quiet?
            && r.process.memory == r.server && r.server == s.server + 1
            && r.disk.Whole? && HasKey(r.disk.config) && r.disk.config.settings == WithDefaults(s.disk.config.settings)
            && (OnDisk(r, r.server) <==> HasKey(s.disk.config))
            && (OnDisk(r, s.server) <==> !HasKey(s.disk.config))
            && (Lost(Do(r, Crash)) <==> !HasKey(s.disk.config))
  {
    BootRefreshes(s);
    if !HasKey(s.disk.config) {
      var t := DoAll(s, STARTUP + REFRESH).value;
      KeyHeals(t);
      Composed(s, STARTUP + REFRESH, t, HEAL_KEY, DoAll(t, HEAL_KEY).value);
    }
  }

  /** The first refresh of a start whose config holds a used token can only be answered as revoked. */
  lemma StartIsRefused(s: State)
    requires MayBoot(s) && Loaded(s.disk).value.refreshToken < s.server
    ensures var r := DoAll(s, STARTUP + [BeginRefresh]);
            r.Some? && Enabled(r.value, Revoke) && !Enabled(r.value, Serve)
  {
    StartsUp(s, STARTUP);
    DoAllAppend(s, STARTUP, [BeginRefresh]);
    var t := DoAll(s, STARTUP).value;
    assert [BeginRefresh][1..] == [];
    assert DoAll(t, [BeginRefresh]) == Some(Do(t, BeginRefresh));
  }

  /** A crash right after a start that had to make a key: the restarted agent's first refresh is refused. */
  lemma MissingKeyThenCrash(s: State)
    requires Init(s) && !HasKey(s.disk.config)
    ensures Started(s).Some? && Started(s).value.process.Up?
    ensures var t := Do(Started(s).value, Crash);
            var r := DoAll(t, STARTUP + [BeginRefresh]);
            r.Some? && Enabled(r.value, Revoke) && !Enabled(r.value, Serve)
  {
    StartKeepsDiskIffKeyed(s);
    DefaultsKeep(s.disk.config.settings);
    StartIsRefused(Do(Started(s).value, Crash));
  }

  /** Without a crash, the next refresh puts memory, disk and server back in step. */
  lemma MissingKeyThenRefresh(s: State)
    requires Init(s) && !HasKey(s.disk.config)
    ensures Started(s).Some?
    ensures var r := DoAll(Started(s).value, REFRESH);
            && r.Some? && OnDisk(r.value, r.value.server) && r.value.process.Up?
            && r.value.process.memory == r.value.server && r.value.disk.Whole? && HasKey(r.value.disk.config)
  {
    StartKeepsDiskIffKeyed(s);
    RefreshHeals(Started(s).value);
  }

  /**
   A crash while the missing key is being written, wherever it cuts the file:
   the session is lost, and the next start either finds no config it accepts or
   has its first refresh answered as revoked.
   */
  lemma TornKeySave(s: State, key: string, cut: Cut)
    requires Init(s) && !HasKey(s.disk.config) && key != ""
    requires IsCut(Text(Filled(s.disk.config).(privateKey := key)), cut)
    ensures DoAll(s, STARTUP + REFRESH).Some?
    ensures Enabled(DoAll(s, STARTUP + REFRESH).value, BeginKeySave(key, cut))
    ensures var t := Do(Do(DoAll(s, STARTUP + REFRESH).value, BeginKeySave(key, cut)), Crash);
            && Lost(t)
            && (Loaded(t.disk).Some? <==> ReachesSecret(Text(Filled(s.disk.config).(privateKey := key)), cut))
            && (MayBoot(t) ==>
                  var r := DoAll(t, STARTUP + [BeginRefresh]);
                  r.Some? && Enabled(r.value, Revoke) && !Enabled(r.value, Serve))
  {
    BootRefreshes(s);
    DefaultsKeep(s.disk.config.settings);
    var t := Do(Do(DoAll(s, STARTUP + REFRESH).value, BeginKeySave(key, cut)), Crash);
    if MayBoot(t) { StartIsRefused(t); }
  }

  /** In every run, a crash while a key is being saved loses the session, for ever by `LostForever`. */
  lemma KeySaveCrashLoses(run: seq<State>, i: nat)
    requires IsRun(run) && i < |run| && run[i].process.Up? && run[i].process.phase.SavingKey?
    ensures Lost(Do(run[i], Crash))
  {
    AnyRun(run, i);
  }
}
