/**
 * The thanos-rule-syncer sidecar (main.go): configuration defaults, the
 * choice of fetcher, the reload request to Thanos Ruler, and the sync loop
 * that fetches the rules, writes them to a file and triggers a reload, once
 * at start and then once per tick until cancelled.
 *
 * The outcome of every I/O step (fetch, create, copy, close, reload) is an
 * input; the file on disk, the open handles, the reload requests sent and
 * the log are fields of a Sidecar object that the cycle updates in place.
 */
module Syncer {
  import opened Wrappers
  import opened Http

  newtype byte = x: int | 0 <= x < 0x100
  newtype uint64 = x: int | 0 <= x < 0x1_0000_0000_0000_0000

  const TwoTo63 := 0x8000_0000_0000_0000
  const TwoTo64 := 0x1_0000_0000_0000_0000

  // ---------------------------------------------------------------------
  // Configuration
  // ---------------------------------------------------------------------

  const DefaultFile := "rules.yaml"
  const DefaultInterval: uint64 := 60
  const DefaultListenInternal := ":8083"

  datatype OidcConfig = OidcConfig(audience: string, clientID: string, clientSecret: string, issuerURL: string)

  datatype Config = Config(
    rulesBackendURL: string,
    observatoriumURL: string,
    observatoriumCA: string,
    thanosRuleURL: string,
    file: string,
    tenant: string,
    oidc: OidcConfig,
    interval: uint64,
    listenInternal: string)

  /** The value of a string flag: the one given on the command line, or its default. */
  function FlagValue(given: map<string, string>, flagName: string, fallback: string): string {
    if flagName in given then given[flagName] else fallback
  }

  /**
   * The configuration the command line yields. `given` maps the names of the
   * string flags that were set to their values; `interval` is the parsed
   * value of -interval when it was set.
   */
  function ParseFlags(given: map<string, string>, interval: Option<uint64>): Config {
    Config(
      rulesBackendURL := FlagValue(given, "rules-backend-url", ""),
      observatoriumURL := FlagValue(given, "observatorium-api-url", ""),
      observatoriumCA := FlagValue(given, "observatorium-ca", ""),
      thanosRuleURL := FlagValue(given, "thanos-rule-url", ""),
      file := FlagValue(given, "file", DefaultFile),
      tenant := FlagValue(given, "tenant", ""),
      oidc := OidcConfig(
        audience := FlagValue(given, "oidc.audience", ""),
        clientID := FlagValue(given, "oidc.client-id", ""),
        clientSecret := FlagValue(given, "oidc.client-secret", ""),
        issuerURL := FlagValue(given, "oidc.issuer-url", "")),
      interval := if interval.Some? then interval.value else DefaultInterval,
      listenInternal := FlagValue(given, "web.internal.listen", DefaultListenInternal))
  }

  // ---------------------------------------------------------------------
  // Fetcher selection
  // ---------------------------------------------------------------------

  /** The two sources of rules: the whole rules backend, or one tenant through the API. */
  datatype Fetcher =
    | RulesBackendFetcher(url: string)
    | ObservatoriumAPIFetcher(url: string, tenant: string)

  /** A non-empty rules backend URL takes priority over the Observatorium API. */
  function SelectFetcher(cfg: Config): (f: Fetcher)
    ensures f.RulesBackendFetcher? <==> cfg.rulesBackendURL != ""
    ensures f.RulesBackendFetcher? ==> f.url == cfg.rulesBackendURL
    ensures f.ObservatoriumAPIFetcher? ==> f.url == cfg.observatoriumURL && f.tenant == cfg.tenant
  {
    if cfg.rulesBackendURL != "" then RulesBackendFetcher(cfg.rulesBackendURL)
    else ObservatoriumAPIFetcher(cfg.observatoriumURL, cfg.tenant)
  }

  /**
   * With no flags at all, the rules go to rules.yaml every 60 seconds, and
   * they are fetched through the API for the (empty) configured tenant.
   */
  lemma DefaultConfiguration()
    ensures var cfg := ParseFlags(map[], None);
      cfg.file == "rules.yaml" && cfg.interval == 60 && cfg.listenInternal == ":8083" &&
      SelectFetcher(cfg) == ObservatoriumAPIFetcher("", "")
  {
  }

  /** Setting a non-empty -rules-backend-url selects the backend fetcher, whatever else is set. */
  lemma BackendUrlTakesPriority(given: map<string, string>, interval: Option<uint64>)
    requires "rules-backend-url" in given && given["rules-backend-url"] != ""
    ensures SelectFetcher(ParseFlags(given, interval)) == RulesBackendFetcher(given["rules-backend-url"])
  {
  }

  // ---------------------------------------------------------------------
  // Reload
  // ---------------------------------------------------------------------

  const ReloadSuffix := "/-/reload"

  /** Go's integer division, which truncates toward zero. */
  function GoDiv(a: int, b: int): int
    requires b > 0
  {
    if a >= 0 then a / b else -((-a) / b)
  }

  /** `status/100 == 2` in Go holds exactly for the 2xx statuses. */
  lemma StatusClassIs2xx(status: int)
    ensures GoDiv(status, 100) == 2 <==> 200 <= status <= 299
  {
    if status < 0 {
      assert (-status) / 100 >= 0;
    }
  }

  /** What happened to the reload request: it could not be built, not be delivered, or got a status. */
  datatype ReloadOutcome = RequestInvalid | TransportFailed | Responded(status: int)

  datatype ReloadRequest = ReloadRequest(httpMethod: string, url: string)

  datatype ReloadFailure = BadRequest | Transport | UnexpectedStatus(status: int)

  /** The request sent to Thanos Ruler, if any, and the error returned, if any. */
  datatype ReloadAttempt = ReloadAttempt(sent: Option<ReloadRequest>, failure: Option<ReloadFailure>)

  /** reloadThanosRule: POST to the reload endpoint; only a 2xx status is success. */
  function ReloadThanosRule(url: string, outcome: ReloadOutcome): (a: ReloadAttempt)
    ensures a.failure.None? <==> outcome.Responded? && 200 <= outcome.status <= 299
    ensures a.sent.Some? <==> !outcome.RequestInvalid?
    ensures a.sent.Some? ==> a.sent.value == ReloadRequest(MethodPost, url + ReloadSuffix)
    ensures outcome.Responded? && a.failure.Some? ==> a.failure.value == UnexpectedStatus(outcome.status)
  {
    var request := ReloadRequest(MethodPost, url + ReloadSuffix);
    match outcome
    case RequestInvalid => ReloadAttempt(None, Some(BadRequest))
    case TransportFailed => ReloadAttempt(Some(request), Some(Transport))
    case Responded(status) =>
      StatusClassIs2xx(status);
      ReloadAttempt(Some(request), if GoDiv(status, 100) != 2 then Some(UnexpectedStatus(status)) else None)
  }

  // ---------------------------------------------------------------------
  // Ticker period
  // ---------------------------------------------------------------------

  const Second := 1_000_000_000
  /** The largest interval, in seconds, whose period fits in a time.Duration. */
  const MaxIntervalSeconds := 9_223_372_036

  /** Conversion to Go's int64: two's-complement wrap-around. */
  function ToInt64(x: int): (r: int)
    ensures -TwoTo63 <= r < TwoTo63
  {
    var m := x % TwoTo64;
    if m < TwoTo63 then m else m - TwoTo64
  }

  /** `time.Duration(cfg.interval) * time.Second`, in nanoseconds, with int64 wrap-around. */
  function TickerPeriod(interval: uint64): int {
    ToInt64(ToInt64(interval as int) * Second)
  }

  /** time.NewTicker accepts only a positive period; it panics otherwise. */
  predicate TickerAccepts(interval: uint64) {
    TickerPeriod(interval) > 0
  }

  /** An interval of 1 to MaxIntervalSeconds seconds gives that many seconds as a positive period. */
  lemma PeriodOfValidInterval(interval: uint64)
    requires 0 < interval as int <= MaxIntervalSeconds
    ensures TickerPeriod(interval) == interval as int * Second > 0
  {
    assert ToInt64(interval as int) == interval as int;
    assert interval as int * Second < TwoTo63;
  }

  /** An interval of 0, or one past MaxIntervalSeconds, gives a period time.NewTicker rejects. */
  lemma PeriodOfInvalidInterval()
    ensures TickerPeriod(0) <= 0
    ensures TickerPeriod((MaxIntervalSeconds + 1) as uint64) <= 0
  {
  }

  /**
   * Past MaxIntervalSeconds the period wraps instead of being rejected: an
   * interval of 18446744074 seconds is accepted, with a period of 290448384
   * nanoseconds, so the loop then ticks about every 0.29 seconds.
   */
  lemma HugeIntervalWrapsToShortPeriod()
    ensures TickerPeriod(18_446_744_074) == 290_448_384
    ensures TickerAccepts(18_446_744_074)
  {
  }

  // ---------------------------------------------------------------------
  // One sync cycle
  // ---------------------------------------------------------------------

  datatype FetchOutcome = Fetched(stream: seq<byte>) | FetchFailed

  /** The copy into the file: complete, or failed after `written` bytes reached the file. */
  datatype CopyOutcome = Copied | CopyFailed(written: nat)

  /** The outcome of every I/O step of one cycle, in the order the cycle takes them. */
  datatype CycleInputs = CycleInputs(
    fetch: FetchOutcome,
    createOk: bool,
    copy: CopyOutcome,
    closeOk: bool,
    reload: ReloadOutcome)

  /** The error a cycle returns, one per step. */
  datatype CycleError =
    | FetchError
    | CreateError(path: string)
    | WriteError(path: string)
    | CloseError(path: string)
    | ReloadError(failure: ReloadFailure)

  /** The first `n` bytes of a stream (all of it if it is shorter). */
  function Prefix(stream: seq<byte>, n: nat): seq<byte> {
    if n < |stream| then stream[..n] else stream
  }

  /** The file steps (create, copy, close) all succeed on the fetched stream. */
  predicate FileWritten(step: CycleInputs) {
    step.fetch.Fetched? && step.createOk && step.copy.Copied? && step.closeOk
  }

  /** The error a cycle returns: the first step that fails, if any. */
  function CycleErrorOf(cfg: Config, step: CycleInputs): Option<CycleError> {
    if step.fetch.FetchFailed? then Some(FetchError)
    else if !step.createOk then Some(CreateError(cfg.file))
    else if step.copy.CopyFailed? then Some(WriteError(cfg.file))
    else if !step.closeOk then Some(CloseError(cfg.file))
    else
      var attempt := ReloadThanosRule(cfg.thanosRuleURL, step.reload);
      if attempt.failure.Some? then Some(ReloadError(attempt.failure.value)) else None
  }

  /**
   * A cycle fails at the fetch exactly when the fetch fails, succeeds exactly
   * when the file is written and the reload gets a 2xx, and reports a reload
   * error exactly when it fails after the file is written.
   */
  lemma CycleErrorCases(cfg: Config, step: CycleInputs)
    ensures CycleErrorOf(cfg, step) == Some(FetchError) <==> step.fetch.FetchFailed?
    ensures CycleErrorOf(cfg, step).None? <==>
      FileWritten(step) && step.reload.Responded? && 200 <= step.reload.status <= 299
    ensures CycleErrorOf(cfg, step).Some? && CycleErrorOf(cfg, step).value.ReloadError? <==>
      FileWritten(step) && CycleErrorOf(cfg, step).Some?
  {
  }

  /** The rules file after a cycle (None: the file does not exist). */
  function DiskAfter(disk: Option<seq<byte>>, step: CycleInputs): Option<seq<byte>> {
    if step.fetch.FetchFailed? || !step.createOk then disk
    else if step.copy.CopyFailed? then Some(Prefix(step.fetch.stream, step.copy.written))
    else Some(step.fetch.stream)
  }

  /** File handles a cycle leaves open: the copy-error path does not close the file. */
  function FilesLeaked(step: CycleInputs): nat {
    if step.fetch.Fetched? && step.createOk && step.copy.CopyFailed? then 1 else 0
  }

  function SentOf(a: ReloadAttempt): seq<ReloadRequest> {
    if a.sent.Some? then [a.sent.value] else []
  }

  /** Reload requests a cycle sends: one attempt, and only once the file is written. */
  function ReloadsSent(cfg: Config, step: CycleInputs): seq<ReloadRequest> {
    if FileWritten(step) then SentOf(ReloadThanosRule(cfg.thanosRuleURL, step.reload)) else []
  }

  /** A failed fetch returns an error without touching the file or calling reload. */
  lemma FetchFailureTouchesNothing(cfg: Config, disk: Option<seq<byte>>, step: CycleInputs)
    requires step.fetch.FetchFailed?
    ensures CycleErrorOf(cfg, step) == Some(FetchError)
    ensures DiskAfter(disk, step) == disk && FilesLeaked(step) == 0 && ReloadsSent(cfg, step) == []
  {
  }

  /** A failed create, copy or close returns an error, and reload is never called. */
  lemma FileFailureSkipsReload(cfg: Config, step: CycleInputs)
    requires step.fetch.Fetched? && !FileWritten(step)
    ensures CycleErrorOf(cfg, step) in {Some(CreateError(cfg.file)), Some(WriteError(cfg.file)), Some(CloseError(cfg.file))}
    ensures ReloadsSent(cfg, step) == []
  {
  }

  /** When only the reload fails, the file already holds the fetched bytes and the cycle reports an error. */
  lemma ReloadFailureKeepsFile(cfg: Config, disk: Option<seq<byte>>, step: CycleInputs)
    requires FileWritten(step) && !(step.reload.Responded? && 200 <= step.reload.status <= 299)
    ensures DiskAfter(disk, step) == Some(step.fetch.stream)
    ensures CycleErrorOf(cfg, step).Some? && CycleErrorOf(cfg, step).value.ReloadError?
  {
  }

  // ---------------------------------------------------------------------
  // The loop
  // ---------------------------------------------------------------------

  /** What the loop waits on: a tick of the ticker (with the next cycle's outcomes), or cancellation. */
  datatype Event = Tick(inputs: CycleInputs) | Done

  /** How the loop ended: cancelled, still waiting when the events ran out, or time.NewTicker panicked. */
  datatype RunExit = Cancelled | Waiting | TickerPanic

  predicate HasDone(events: seq<Event>) {
    exists m :: 0 <= m < |events| && events[m].Done?
  }

  /** The cycles the ticks ask for before the first cancellation. */
  function TicksBeforeDone(events: seq<Event>): seq<CycleInputs> {
    if events == [] || events[0].Done? then [] else [events[0].inputs] + TicksBeforeDone(events[1..])
  }

  /** Exactly one cycle per tick before the first cancellation, with that tick's outcomes. */
  lemma {:induction false} OneCyclePerTick(events: seq<Event>, k: nat)
    requires k <= |events|
    requires forall m :: 0 <= m < k ==> events[m].Tick?
    requires k == |events| || events[k].Done?
    ensures |TicksBeforeDone(events)| == k
    ensures forall m :: 0 <= m < k ==> TicksBeforeDone(events)[m] == events[m].inputs
  {
    if k > 0 {
      OneCyclePerTick(events[1..], k - 1);
    }
  }

  function ErrorsOf(e: Option<CycleError>): seq<CycleError> {
    if e.Some? then [e.value] else []
  }

  /** The log after a run of cycles: the error of every cycle that failed, in order. */
  function Failures(cfg: Config, cycles: seq<CycleInputs>): seq<CycleError> {
    if cycles == [] then [] else ErrorsOf(CycleErrorOf(cfg, cycles[0])) + Failures(cfg, cycles[1..])
  }

  /** Nothing is logged exactly when every cycle succeeded. */
  lemma {:induction false} QuietLogIffAllSucceeded(cfg: Config, cycles: seq<CycleInputs>)
    ensures Failures(cfg, cycles) == [] <==> forall i :: 0 <= i < |cycles| ==> CycleErrorOf(cfg, cycles[i]).None?
  {
    if cycles != [] {
      QuietLogIffAllSucceeded(cfg, cycles[1..]);
      assert forall i :: 1 <= i < |cycles| ==> cycles[i] == cycles[1..][i - 1];
    }
  }

  /** A tick at position k contributes its outcomes to the ticks still to come. */
  lemma TicksStep(events: seq<Event>, k: nat)
    requires k < |events| && events[k].Tick?
    ensures TicksBeforeDone(events[k..]) == [events[k].inputs] + TicksBeforeDone(events[k + 1..])
  {
    assert events[k..][1..] == events[k + 1..];
  }

  /** The rules file after a run of cycles, one after the other. */
  function DiskAfterAll(disk: Option<seq<byte>>, cycles: seq<CycleInputs>): Option<seq<byte>>
    decreases cycles
  {
    if cycles == [] then disk else DiskAfterAll(DiskAfter(disk, cycles[0]), cycles[1..])
  }

  /** The reload requests a run of cycles sends, in order. */
  function ReloadsOf(cfg: Config, cycles: seq<CycleInputs>): seq<ReloadRequest> {
    if cycles == [] then [] else ReloadsSent(cfg, cycles[0]) + ReloadsOf(cfg, cycles[1..])
  }

  /** The file handles a run of cycles leaves open. */
  function LeakedOf(cycles: seq<CycleInputs>): nat {
    if cycles == [] then 0 else FilesLeaked(cycles[0]) + LeakedOf(cycles[1..])
  }

  /** Running one more cycle applies that cycle's effect to the file. */
  lemma {:induction false} DiskAfterAllAppend(disk: Option<seq<byte>>, cycles: seq<CycleInputs>, step: CycleInputs)
    ensures DiskAfterAll(disk, cycles + [step]) == DiskAfter(DiskAfterAll(disk, cycles), step)
    decreases cycles
  {
    if cycles != [] {
      assert (cycles + [step])[1..] == cycles[1..] + [step];
      DiskAfterAllAppend(DiskAfter(disk, cycles[0]), cycles[1..], step);
    }
  }

  /**
   * Whatever the earlier cycles did, once a cycle fetches, creates the file
   * and copies the whole stream, the file holds exactly that stream.
   */
  lemma LastCompleteCopyWins(disk: Option<seq<byte>>, cycles: seq<CycleInputs>, step: CycleInputs)
    requires step.fetch.Fetched? && step.createOk && step.copy.Copied?
    ensures DiskAfterAll(disk, cycles + [step]) == Some(step.fetch.stream)
  {
    DiskAfterAllAppend(disk, cycles, step);
  }

  /**
   * Every reload request the loop sends is a POST to Thanos Ruler's reload
   * endpoint, at most one per cycle, and none at all exactly when no cycle
   * both wrote the file and could build the request.
   */
  lemma {:induction false} ReloadsAllTargetRuler(cfg: Config, cycles: seq<CycleInputs>)
    ensures |ReloadsOf(cfg, cycles)| <= |cycles|
    ensures forall r :: r in ReloadsOf(cfg, cycles) ==> r == ReloadRequest(MethodPost, cfg.thanosRuleURL + ReloadSuffix)
    ensures ReloadsOf(cfg, cycles) == [] <==>
      forall i :: 0 <= i < |cycles| ==> !FileWritten(cycles[i]) || cycles[i].reload.RequestInvalid?
  {
    if cycles != [] {
      ReloadsAllTargetRuler(cfg, cycles[1..]);
      assert forall i :: 1 <= i < |cycles| ==> cycles[i] == cycles[1..][i - 1];
    }
  }

  /** Handles stay closed over a run of cycles exactly when no copy into the file failed. */
  lemma {:induction false} NoLeakWithoutCopyError(cycles: seq<CycleInputs>)
    ensures LeakedOf(cycles) == 0 <==>
      forall i :: 0 <= i < |cycles| ==>
        !(cycles[i].fetch.Fetched? && cycles[i].createOk && cycles[i].copy.CopyFailed?)
  {
    if cycles != [] {
      NoLeakWithoutCopyError(cycles[1..]);
      assert forall i :: 1 <= i < |cycles| ==> cycles[i] == cycles[1..][i - 1];
    }
  }

  /** The part of the sidecar's state a cycle changes and the loop accumulates. */
  datatype LoopState = LoopState(
    disk: Option<seq<byte>>,
    openFiles: nat,
    reloads: seq<ReloadRequest>,
    log: seq<CycleError>,
    cycles: nat)

  /** One cycle, with its error logged. */
  function Step(cfg: Config, st: LoopState, step: CycleInputs): LoopState {
    LoopState(
      DiskAfter(st.disk, step),
      st.openFiles + FilesLeaked(step),
      st.reloads + ReloadsSent(cfg, step),
      st.log + ErrorsOf(CycleErrorOf(cfg, step)),
      st.cycles + 1)
  }

  /** A run of cycles, one after the other. */
  function StepAll(cfg: Config, st: LoopState, cycles: seq<CycleInputs>): LoopState
    decreases cycles
  {
    if cycles == [] then st else StepAll(cfg, Step(cfg, st, cycles[0]), cycles[1..])
  }

  /**
   * After a run of cycles the file is the result of each cycle's writes in
   * turn, the reloads and leaked handles of every cycle are added, every
   * failing cycle's error is logged in order, and one cycle is counted per
   * element.
   */
  lemma {:induction false} StepAllEffects(cfg: Config, st: LoopState, cycles: seq<CycleInputs>)
    ensures var after := StepAll(cfg, st, cycles);
      after.disk == DiskAfterAll(st.disk, cycles) &&
      after.openFiles == st.openFiles + LeakedOf(cycles) &&
      after.reloads == st.reloads + ReloadsOf(cfg, cycles) &&
      after.log == st.log + Failures(cfg, cycles) &&
      after.cycles == st.cycles + |cycles|
    decreases cycles
  {
    if cycles != [] {
      var next := Step(cfg, st, cycles[0]);
      StepAllEffects(cfg, next, cycles[1..]);
      assert next.reloads + ReloadsOf(cfg, cycles[1..]) == st.reloads + ReloadsOf(cfg, cycles);
      assert next.log + Failures(cfg, cycles[1..]) == st.log + Failures(cfg, cycles);
    }
  }

  /** The sidecar's observable state: the rules file, open handles, reloads sent, the log. */
  class Sidecar {
    const cfg: Config
    /** The contents of cfg.file, None while it does not exist. */
    var disk: Option<seq<byte>>
    /** File handles opened and not closed. */
    var openFiles: nat
    /** Fetched rule streams not closed. */
    var openStreams: nat
    /** Reload requests sent to Thanos Ruler, in order. */
    var reloads: seq<ReloadRequest>
    /** Errors logged by the loop, in order. */
    var log: seq<CycleError>
    /** Cycles started. */
    var cycles: nat

    constructor (cfg: Config, disk: Option<seq<byte>>)
      ensures this.cfg == cfg && this.disk == disk
      ensures openFiles == 0 && openStreams == 0 && reloads == [] && log == [] && cycles == 0
    {
      this.cfg := cfg;
      this.disk := disk;
      openFiles, openStreams, reloads, log, cycles := 0, 0, [], [], 0;
    }

    /** Steps 3 to 6 of a cycle, once the rules stream is open. */
    method WriteAndReload(step: CycleInputs) returns (err: Option<CycleError>)
      requires step.fetch.Fetched?
      modifies this`disk, this`openFiles, this`reloads
      ensures err == CycleErrorOf(cfg, step)
      ensures disk == DiskAfter(old(disk), step)
      ensures openFiles == old(openFiles) + FilesLeaked(step)
      ensures reloads == old(reloads) + ReloadsSent(cfg, step)
    {
      if !step.createOk {
        return Some(CreateError(cfg.file));
      }
      disk := Some([]);
      openFiles := openFiles + 1;
      if step.copy.CopyFailed? {
        disk := Some(Prefix(step.fetch.stream, step.copy.written));
        return Some(WriteError(cfg.file));
      }
      disk := Some(step.fetch.stream);
      openFiles := openFiles - 1;
      if !step.closeOk {
        return Some(CloseError(cfg.file));
      }
      var attempt := ReloadThanosRule(cfg.thanosRuleURL, step.reload);
      reloads := reloads + SentOf(attempt);
      if attempt.failure.Some? {
        return Some(ReloadError(attempt.failure.value));
      }
      return None;
    }

    /** One cycle: fetch, then (with the stream closed on every way out) write the file and reload. */
    method RunCycle(step: CycleInputs) returns (err: Option<CycleError>)
      modifies this`disk, this`openFiles, this`openStreams, this`reloads, this`cycles
      ensures err == CycleErrorOf(cfg, step)
      ensures cycles == old(cycles) + 1
      ensures openStreams == old(openStreams)
      ensures disk == DiskAfter(old(disk), step)
      ensures openFiles == old(openFiles) + FilesLeaked(step)
      ensures reloads == old(reloads) + ReloadsSent(cfg, step)
    {
      cycles := cycles + 1;
      if step.fetch.FetchFailed? {
        return Some(FetchError);
      }
      openStreams := openStreams + 1;
      err := WriteAndReload(step);
      openStreams := openStreams - 1;
    }

    /** The fields a cycle changes and the loop accumulates. */
    ghost function State(): LoopState
      reads this
    {
      LoopState(disk, openFiles, reloads, log, cycles)
    }

    /** `if err := fn(ctx); err != nil { log.Print(...) }`: one cycle, its error logged. */
    method CycleAndLog(step: CycleInputs)
      modifies this`disk, this`openFiles, this`openStreams, this`reloads, this`cycles, this`log
      ensures State() == Step(cfg, old(State()), step)
      ensures openStreams == old(openStreams)
    {
      var err := RunCycle(step);
      if err.Some? {
        log := log + [err.value];
      }
    }

    /**
     * The loop: one cycle straight away, then one per tick until cancelled.
     * Cycle errors are logged and never end the loop. When time.NewTicker
     * rejects the period, only the first cycle runs.
     */
    method Run(first: CycleInputs, events: seq<Event>) returns (exit: RunExit)
      modifies this`disk, this`openFiles, this`openStreams, this`reloads, this`cycles, this`log
      ensures openStreams == old(openStreams)
      ensures !TickerAccepts(cfg.interval) ==> exit == TickerPanic && State() == Step(cfg, old(State()), first)
      ensures TickerAccepts(cfg.interval) ==>
        State() == StepAll(cfg, old(State()), [first] + TicksBeforeDone(events))
      ensures var all := if TickerAccepts(cfg.interval) then [first] + TicksBeforeDone(events) else [first];
        disk == DiskAfterAll(old(disk), all) &&
        openFiles == old(openFiles) + LeakedOf(all) &&
        reloads == old(reloads) + ReloadsOf(cfg, all) &&
        log == old(log) + Failures(cfg, all) &&
        cycles == old(cycles) + |all|
      ensures TickerAccepts(cfg.interval) ==> (exit == Cancelled <==> HasDone(events))
      ensures TickerAccepts(cfg.interval) ==> (exit == Waiting <==> !HasDone(events))
    {
      CycleAndLog(first);
      if !TickerAccepts(cfg.interval) {
        StepAllEffects(cfg, old(State()), [first]);
        return TickerPanic;
      }
      ghost var ticks := TicksBeforeDone(events);
      assert ([first] + ticks)[1..] == ticks;
      exit := ServeTicks(events);
      StepAllEffects(cfg, old(State()), [first] + ticks);
    }

    /** The `for { select }` loop: a cycle per tick, until the context is cancelled. */
    method ServeTicks(events: seq<Event>) returns (exit: RunExit)
      modifies this`disk, this`openFiles, this`openStreams, this`reloads, this`cycles, this`log
      ensures openStreams == old(openStreams)
      ensures State() == StepAll(cfg, old(State()), TicksBeforeDone(events))
      ensures var ticks := TicksBeforeDone(events);
        disk == DiskAfterAll(old(disk), ticks) &&
        openFiles == old(openFiles) + LeakedOf(ticks) &&
        reloads == old(reloads) + ReloadsOf(cfg, ticks) &&
        log == old(log) + Failures(cfg, ticks) &&
        cycles == old(cycles) + |ticks|
      ensures exit == Cancelled <==> HasDone(events)
      ensures exit == Waiting <==> !HasDone(events)
    {
      ghost var rest := TicksBeforeDone(events);
      var k := 0;
      while k < |events|
        invariant 0 <= k <= |events|
        invariant forall m :: 0 <= m < k ==> events[m].Tick?
        invariant rest == TicksBeforeDone(events[k..])
        invariant StepAll(cfg, State(), rest) == StepAll(cfg, old(State()), TicksBeforeDone(events))
        invariant openStreams == old(openStreams)
      {
        if events[k].Done? {
          assert events[k..][0] == events[k];
          StepAllEffects(cfg, old(State()), TicksBeforeDone(events));
          return Cancelled;
        }
        TicksStep(events, k);
        CycleAndLog(events[k].inputs);
        rest := rest[1..];
        k := k + 1;
      }
      assert events[k..] == [];
      StepAllEffects(cfg, old(State()), TicksBeforeDone(events));
      return Waiting;
    }
  }
}
