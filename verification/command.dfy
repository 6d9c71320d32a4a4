/**
 * One run of the `festerize` command: the empty-argument check, the single
 * availability probe, and one in-order pass over the source paths in which
 * every path is classified, uploaded when it is an existing CSV file, and
 * either reported and skipped or, in strict mode, made to end the run.
 *
 * The network, the file system, the terminal and the log are observed
 * through their results: the probe outcome and, per path, a
 * `PathObservation`. What the run does to them is recorded, in order, as a
 * sequence of `Effect`s.
 */
module Command {
  import opened Common
  import opened Paths
  import opened Requests

  /** The exit codes of the command. */
  datatype FesterizeError =
    | NoFilesSpecified
    | NonexistentFileSpecified
    | NonCsvFileSpecified
    | FesterUnavailable
    | FesterErrorResponse
    | FileIoError
  {
    function Code(): (code: nat)
      ensures 1 <= code <= 6
      ensures code == 1 <==> this == NoFilesSpecified
      ensures code == 4 <==> this == FesterUnavailable
    {
      match this
      case NoFilesSpecified => 1
      case NonexistentFileSpecified => 2
      case NonCsvFileSpecified => 3
      case FesterUnavailable => 4
      case FesterErrorResponse => 5
      case FileIoError => 6
    }
  }

  /** The options of one run; fixed for its whole duration. */
  datatype Config = Config(
    apiVersion: ApiVersion,
    server: string,
    out: string,
    iiifHost: Option<string>,
    metadataUpdate: bool,
    strict: bool,
    clientVersion: string)

  /** An HTTP status as the HTTP client accepts it: three decimal digits. */
  type StatusCode = s: nat | 100 <= s <= 999 witness 200

  /**
   * What the environment answers for one source path: whether it exists, the
   * bytes of the file, and the status, body and parsed error page of the
   * response its upload would receive (consulted only when it is uploaded).
   */
  datatype PathObservation = PathObservation(
    path: string,
    present: bool,
    content: seq<byte>,
    status: StatusCode,
    body: seq<byte>,
    page: ErrorPage)

  /** The result of the availability probe: a success status, or the text of the raised error. */
  datatype Probe = Healthy | Unavailable(reason: string)

  /** What became of one source path. */
  datatype Outcome =
    | Nonexistent
    | NotCsv
    | Saved(bytesWritten: nat)
    | SavedEmpty
    | UploadFailed(status: StatusCode, cause: string)
    | UnreadableErrorPage(status: StatusCode)

  /** How a run ends: normally, with an exit code, or with an uncaught exception. */
  datatype Termination = Completed | Exited(error: FesterizeError) | Crashed

  /** The process exit status; an uncaught exception makes the interpreter exit with 1. */
  function ExitStatus(t: Termination): nat {
    match t
    case Completed => 0
    case Exited(e) => e.Code()
    case Crashed => 1
  }

  /** An observable action of the run. */
  datatype Effect =
    | Stdout(line: string)
    | Stderr(line: string)
    | LogError(line: string)
    | Get(url: string, headers: Headers)
    | Post(request: Upload)
    | Write(path: string, data: seq<byte>)
    | Celebrate

  /** The `file` part of an upload: the path as given, the bytes, the content type and the part headers. */
  datatype FilePart = FilePart(filename: string, content: seq<byte>, contentType: string, headers: Headers)

  /** One POST to the collections endpoint. */
  datatype Upload = Upload(url: string, headers: Headers, file: FilePart, fields: seq<Field>)

  /** A run: the outcome of every path processed, in order, what it did, and how it ended. */
  datatype RunTrace = RunTrace(outcomes: seq<Outcome>, effects: seq<Effect>, end: Termination)

  const NO_FILES_MESSAGE := "Please provide one or more CSV files"

  function UnavailableMessage(reason: string): string {
    "Fester IIIF manifest service unavailable: " + reason
  }

  function MissingMessage(name: string): string {
    "File " + name + " does not exist"
  }

  function NotCsvMessage(name: string): string {
    "File " + name + " is not a CSV"
  }

  function UploadingMessage(name: string, url: string): string {
    "Uploading " + name + " to " + url
  }

  function UploadedMessage(name: string): string {
    "Uploaded " + name + " successfully"
  }

  function WriteFailedMessage(name: string): string {
    "Failed to write data to " + name
  }

  /** An error is echoed to standard error and logged at level ERROR. */
  function Report(message: string): seq<Effect> {
    [Stderr(message), LogError(message)]
  }

  /** The path exists and its name passes the CSV test, so it is uploaded. */
  predicate Reached(obs: PathObservation) {
    obs.present && IsCsv(Name(obs.path))
  }

  /** The upload of one path. */
  function UploadOf(cfg: Config, obs: PathObservation): Upload {
    Upload(
      CollectionsUrl(cfg.server),
      RequestHeaders(cfg.clientVersion),
      FilePart(obs.path, obs.content, "text/csv", [("Expires", "0")]),
      Payload(cfg.apiVersion, cfg.iiifHost, cfg.metadataUpdate))
  }

  /**
   * What becomes of one path. Existence is tested before the name, the
   * response is consulted only for an uploaded path, and a result file is
   * written exactly when the response is 201.
   */
  function Classify(obs: PathObservation): (o: Outcome)
    ensures o == Nonexistent <==> !obs.present
    ensures o == NotCsv <==> obs.present && !IsCsv(Name(obs.path))
    ensures (o.Saved? || o.SavedEmpty?) <==> Reached(obs) && obs.status == 201
    ensures o.SavedEmpty? <==> Reached(obs) && obs.status == 201 && |obs.body| == 0
    ensures o.Saved? ==> o.bytesWritten == |obs.body| > 0
    ensures o.UploadFailed? <==> Reached(obs) && obs.status != 201 && HasCause(obs.page)
    ensures o.UploadFailed? ==> o.status == obs.status && o.cause == ErrorCause(obs.page)
  {
    if !obs.present then Nonexistent
    else if !IsCsv(Name(obs.path)) then NotCsv
    else if obs.status == 201 then (if |obs.body| == 0 then SavedEmpty else Saved(|obs.body|))
    else if HasCause(obs.page) then UploadFailed(obs.status, ErrorCause(obs.page))
    else UnreadableErrorPage(obs.status)
  }

  /** The per-path error an outcome stands for, with its own exit code. */
  function Fault(o: Outcome): (e: Option<FesterizeError>)
    ensures e == Some(NonexistentFileSpecified) <==> o == Nonexistent
    ensures e == Some(NonCsvFileSpecified) <==> o == NotCsv
    ensures e == Some(FesterErrorResponse) <==> o.UploadFailed?
    ensures e == Some(FileIoError) <==> o == SavedEmpty
    ensures e.None? <==> o.Saved? || o.UnreadableErrorPage?
  {
    match o
    case Nonexistent => Some(NonexistentFileSpecified)
    case NotCsv => Some(NonCsvFileSpecified)
    case Saved(_) => None
    case SavedEmpty => Some(FileIoError)
    case UploadFailed(_, _) => Some(FesterErrorResponse)
    case UnreadableErrorPage(_) => None
  }

  /** The path ends the run: an unreadable error page always, a per-path error in strict mode. */
  predicate Halts(strict: bool, o: Outcome) {
    o.UnreadableErrorPage? || (strict && Fault(o).Some?)
  }

  /** How the run ends at a path that halts it. */
  function Ending(strict: bool, o: Outcome): Termination
    requires Halts(strict, o)
  {
    if o.UnreadableErrorPage? then Crashed else Exited(Fault(o).value)
  }

  /** The two effects every uploaded path begins with: the "Uploading" line and the POST. */
  function Sent(cfg: Config, obs: PathObservation): seq<Effect> {
    [Stdout(UploadingMessage(Name(obs.path), CollectionsUrl(cfg.server)))] + [Post(UploadOf(cfg, obs))]
  }

  /** The effects of processing one path, in order. */
  function StepEffects(cfg: Config, obs: PathObservation): seq<Effect> {
    var name := Name(obs.path);
    if !obs.present then Report(MissingMessage(name))
    else if !IsCsv(name) then Report(NotCsvMessage(name))
    else
      var sent := Sent(cfg, obs);
      if obs.status == 201 then
        var saved := sent + [Stdout(UploadedMessage(name))] + [Write(JoinPath(cfg.out, name), obs.body)];
        if |obs.body| == 0 then saved + Report(WriteFailedMessage(name)) else saved + [Celebrate]
      else if HasCause(obs.page) then
        sent + Report(FailureMessage(name, ErrorCause(obs.page), obs.status))
      else
        sent
  }

  /** A run prefixed by what was already done. */
  function Then(outcomes: seq<Outcome>, effects: seq<Effect>, rest: RunTrace): RunTrace {
    RunTrace(outcomes + rest.outcomes, effects + rest.effects, rest.end)
  }

  /** What processing one path yields: its outcome and its effects. */
  datatype Step = Step(outcome: Outcome, effects: seq<Effect>)

  /** The step of every source path, in order. */
  function Steps(cfg: Config, src: seq<PathObservation>): (steps: seq<Step>)
    ensures |steps| == |src|
    ensures forall i :: 0 <= i < |src| ==> steps[i] == Step(Classify(src[i]), StepEffects(cfg, src[i]))
  {
    seq(|src|, i requires 0 <= i < |src| => Step(Classify(src[i]), StepEffects(cfg, src[i])))
  }

  /** The steps taken one at a time, in order, up to and including the first that ends the run. */
  function Pass(strict: bool, steps: seq<Step>): RunTrace
    decreases |steps|
  {
    if steps == [] then RunTrace([], [], Completed)
    else
      var o := steps[0].outcome;
      if Halts(strict, o) then RunTrace([o], steps[0].effects, Ending(strict, o))
      else Then([o], steps[0].effects, Pass(strict, steps[1..]))
  }

  /** The pass over the source paths. */
  function ProcessPaths(cfg: Config, src: seq<PathObservation>): RunTrace {
    Pass(cfg.strict, Steps(cfg, src))
  }

  /** One unfolding of the pass at position `i`. */
  lemma PassAt(strict: bool, steps: seq<Step>, i: nat)
    requires i < |steps|
    ensures var o := steps[i].outcome;
      Pass(strict, steps[i..]) ==
        if Halts(strict, o) then RunTrace([o], steps[i].effects, Ending(strict, o))
        else Then([o], steps[i].effects, Pass(strict, steps[i + 1..]))
  {
    assert steps[i..][0] == steps[i] && steps[i..][1..] == steps[i + 1..];
  }

  lemma ThenThen(o1: seq<Outcome>, e1: seq<Effect>, o2: seq<Outcome>, e2: seq<Effect>, t: RunTrace)
    ensures Then(o1, e1, Then(o2, e2, t)) == Then(o1 + o2, e1 + e2, t)
  {
    assert o1 + (o2 + t.outcomes) == (o1 + o2) + t.outcomes;
    assert e1 + (e2 + t.effects) == (e1 + e2) + t.effects;
  }

  /** The probe request. */
  function ProbeRequest(cfg: Config): Effect {
    Get(StatusUrl(cfg.server), RequestHeaders(cfg.clientVersion))
  }

  /** A whole run: the empty-argument check, then the probe, then the pass over the paths. */
  function Run(cfg: Config, probe: Probe, src: seq<PathObservation>): RunTrace {
    if src == [] then RunTrace([], [Stderr(NO_FILES_MESSAGE)], Exited(NoFilesSpecified))
    else
      match probe
      case Unavailable(reason) =>
        RunTrace([], [ProbeRequest(cfg)] + Report(UnavailableMessage(reason)), Exited(FesterUnavailable))
      case Healthy =>
        Then([], [ProbeRequest(cfg)], ProcessPaths(cfg, src))
  }

  /**
   * The processing of one source path inside the loop of `festerize`: the
   * missing-file and extension checks, the upload, and the write of the
   * response body on 201 or the report of the failure otherwise.
   */
  method ProcessPath(cfg: Config, obs: PathObservation) returns (outcome: Outcome, step: seq<Effect>)
    ensures outcome == Classify(obs)
    ensures step == StepEffects(cfg, obs)
  {
    var name := Name(obs.path);
    if !obs.present {
      return Nonexistent, Report(MissingMessage(name));
    }
    if Suffix(name) != ".csv" {
      return NotCsv, Report(NotCsvMessage(name));
    }
    var postUrl := CollectionsUrl(cfg.server);
    step := [Stdout(UploadingMessage(name, postUrl))];
    var upload := Upload(
      postUrl,
      RequestHeaders(cfg.clientVersion),
      FilePart(obs.path, obs.content, "text/csv", [("Expires", "0")]),
      Payload(cfg.apiVersion, cfg.iiifHost, cfg.metadataUpdate));
    step := step + [Post(upload)];
    if obs.status == 201 {
      step := step + [Stdout(UploadedMessage(name))];
      var written := |obs.body|;
      step := step + [Write(JoinPath(cfg.out, name), obs.body)];
      if written == 0 {
        return SavedEmpty, step + Report(WriteFailedMessage(name));
      }
      return Saved(written), step + [Celebrate];
    }
    var cause: string;
    match obs.page.errorMessage {
      case Some(text) =>
        cause := text;
      case None =>
        if obs.page.title.NoTitle? {
          // Reading the title of a page that has none raises before anything is reported.
          return UnreadableErrorPage(obs.status), step;
        }
        cause := TitleString(obs.page.title) + NGINX_MARKER;
    }
    return UploadFailed(obs.status, cause), step + Report(FailureMessage(name, cause, obs.status));
  }

  /**
   * The `festerize` command: checks the argument list, probes the service
   * once, then processes the paths in order, stopping at the first per-path
   * error in strict mode.
   */
  method Festerize(cfg: Config, probe: Probe, src: seq<PathObservation>) returns (trace: RunTrace)
    ensures trace == Run(cfg, probe, src)
  {
    if |src| == 0 {
      return RunTrace([], [Stderr(NO_FILES_MESSAGE)], Exited(NoFilesSpecified));
    }
    var effects := [Get(StatusUrl(cfg.server), RequestHeaders(cfg.clientVersion))];
    if probe.Unavailable? {
      var message := UnavailableMessage(probe.reason);
      return RunTrace([], effects + Report(message), Exited(FesterUnavailable));
    }
    var outcomes: seq<Outcome> := [];
    ghost var steps := Steps(cfg, src);
    assert steps[0..] == steps;
    for i := 0 to |src|
      invariant Run(cfg, probe, src) == Then(outcomes, effects, Pass(cfg.strict, steps[i..]))
    {
      var outcome, step := ProcessPath(cfg, src[i]);
      PassAt(cfg.strict, steps, i);
      ThenThen(outcomes, effects, [outcome], step, Pass(cfg.strict, steps[i + 1..]));
      outcomes := outcomes + [outcome];
      effects := effects + step;
      if outcome.UnreadableErrorPage? {
        return RunTrace(outcomes, effects, Crashed);
      }
      if cfg.strict {
        match Fault(outcome)
        case Some(error) =>
          return RunTrace(outcomes, effects, Exited(error));
        case None =>
      }
    }
    assert steps[|src|..] == [];
    return RunTrace(outcomes, effects, Completed);
  }
}
