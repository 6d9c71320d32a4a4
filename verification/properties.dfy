/**
 * What a run of `festerize` guarantees, stated about the specification `Run`
 * that the `Festerize` method is proved to compute.
 */
module RunProperties {
  import opened Common
  import opened Paths
  import opened Requests
  import opened Command

  /** The position of the first path that ends the run, or |src| when none does. */
  function FirstHalt(strict: bool, src: seq<PathObservation>): (k: nat)
    ensures k <= |src|
    ensures k < |src| ==> Halts(strict, Classify(src[k]))
    ensures forall j :: 0 <= j < k ==> !Halts(strict, Classify(src[j]))
    decreases |src|
  {
    if src == [] then 0
    else if Halts(strict, Classify(src[0])) then 0
    else 1 + FirstHalt(strict, src[1..])
  }

  /** How many paths the pass processes: up to and including the first that ends the run. */
  function ProcessedCount(strict: bool, src: seq<PathObservation>): nat {
    var k := FirstHalt(strict, src);
    if k < |src| then k + 1 else |src|
  }

  /** The outcome of every path of `src`, in order. */
  function ClassifyAll(src: seq<PathObservation>): (outcomes: seq<Outcome>)
    ensures |outcomes| == |src|
    ensures forall i :: 0 <= i < |src| ==> outcomes[i] == Classify(src[i])
  {
    seq(|src|, i requires 0 <= i < |src| => Classify(src[i]))
  }

  /** The effects of processing every path of `src`, one path after the other. */
  function StepsEffects(cfg: Config, src: seq<PathObservation>): seq<Effect>
    decreases |src|
  {
    if src == [] then [] else StepEffects(cfg, src[0]) + StepsEffects(cfg, src[1..])
  }

  /**
   * The pass in closed form: it processes the paths in order, each exactly
   * once, up to and including the first one that ends the run, and ends as
   * that path dictates, or normally when no path ends it.
   */
  lemma ProcessPathsClosedForm(cfg: Config, src: seq<PathObservation>)
    ensures var t := ProcessPaths(cfg, src);
      var k := FirstHalt(cfg.strict, src);
      var n := ProcessedCount(cfg.strict, src);
      && t.outcomes == ClassifyAll(src[..n])
      && t.effects == StepsEffects(cfg, src[..n])
      && t.end == (if k < |src| then Ending(cfg.strict, Classify(src[k])) else Completed)
  {
    var steps := Steps(cfg, src);
    var n := ProcessedCount(cfg.strict, src);
    StopsAgree(cfg, src);
    PassOutcomes(cfg.strict, steps);
    PassEffects(cfg.strict, steps);
    PassEnding(cfg.strict, steps);
    StepsPrefix(cfg, src, n);
    OutcomesOfSteps(cfg, src[..n]);
    EffectsOfSteps(cfg, src[..n]);
  }

  lemma StopsAgree(cfg: Config, src: seq<PathObservation>)
    ensures FirstStop(cfg.strict, Steps(cfg, src)) == FirstHalt(cfg.strict, src)
    ensures StopCount(cfg.strict, Steps(cfg, src)) == ProcessedCount(cfg.strict, src)
  {
    var k := FirstStop(cfg.strict, Steps(cfg, src));
    if k < |src| {
      FirstHaltAt(cfg.strict, src, k);
    } else {
      FirstHaltNone(cfg.strict, src);
    }
  }

  lemma StepsPrefix(cfg: Config, src: seq<PathObservation>, n: nat)
    requires n <= |src|
    ensures Steps(cfg, src)[..n] == Steps(cfg, src[..n])
  {
  }

  // The pass over abstract steps, whatever their outcomes and effects.
  // `FirstStop`, `StopCount`, `OutcomesOf` and `EffectsOf` are `FirstHalt`,
  // `ProcessedCount`, `ClassifyAll` and `StepsEffects` read off the steps
  // rather than off the paths: proved at this level, the closed form never
  // needs the definitions of `Classify` and `StepEffects`, and
  // `StopsAgree`, `OutcomesOfSteps` and `EffectsOfSteps` carry it back.

  /** The position of the first step that ends the pass, or |steps| when none does. */
  function FirstStop(strict: bool, steps: seq<Step>): (k: nat)
    ensures k <= |steps|
    ensures k < |steps| ==> Halts(strict, steps[k].outcome)
    ensures forall j :: 0 <= j < k ==> !Halts(strict, steps[j].outcome)
    decreases |steps|
  {
    if steps == [] then 0
    else if Halts(strict, steps[0].outcome) then 0
    else 1 + FirstStop(strict, steps[1..])
  }

  function StopCount(strict: bool, steps: seq<Step>): nat {
    var k := FirstStop(strict, steps);
    if k < |steps| then k + 1 else |steps|
  }

  function OutcomesOf(steps: seq<Step>): (outcomes: seq<Outcome>)
    ensures |outcomes| == |steps|
    ensures forall i :: 0 <= i < |steps| ==> outcomes[i] == steps[i].outcome
  {
    seq(|steps|, i requires 0 <= i < |steps| => steps[i].outcome)
  }

  function EffectsOf(steps: seq<Step>): seq<Effect>
    decreases |steps|
  {
    if steps == [] then [] else steps[0].effects + EffectsOf(steps[1..])
  }

  lemma {:induction false} PassOutcomes(strict: bool, steps: seq<Step>)
    ensures Pass(strict, steps).outcomes == OutcomesOf(steps[..StopCount(strict, steps)])
    decreases |steps|
  {
    if steps != [] {
      var o := steps[0].outcome;
      if Halts(strict, o) {
        assert steps[..1] == [steps[0]];
      } else {
        var rest := steps[1..];
        PassOutcomes(strict, rest);
        var m := StopCount(strict, rest);
        var done := steps[..m + 1];
        assert done[0] == steps[0] && done[1..] == rest[..m];
        assert OutcomesOf(done) == [o] + OutcomesOf(rest[..m]);
      }
    }
  }

  lemma {:induction false} PassEffects(strict: bool, steps: seq<Step>)
    ensures Pass(strict, steps).effects == EffectsOf(steps[..StopCount(strict, steps)])
    decreases |steps|
  {
    if steps != [] {
      if Halts(strict, steps[0].outcome) {
        assert steps[..1] == [steps[0]];
        assert [steps[0]][1..] == [];
      } else {
        var rest := steps[1..];
        PassEffects(strict, rest);
        var m := StopCount(strict, rest);
        var done := steps[..m + 1];
        assert done[0] == steps[0] && done[1..] == rest[..m];
      }
    }
  }

  lemma {:induction false} PassEnding(strict: bool, steps: seq<Step>)
    ensures var k := FirstStop(strict, steps);
      Pass(strict, steps).end == if k < |steps| then Ending(strict, steps[k].outcome) else Completed
    decreases |steps|
  {
    if steps != [] && !Halts(strict, steps[0].outcome) {
      PassEnding(strict, steps[1..]);
    }
  }

  lemma OutcomesOfSteps(cfg: Config, src: seq<PathObservation>)
    ensures OutcomesOf(Steps(cfg, src)) == ClassifyAll(src)
  {
  }

  lemma {:induction false} EffectsOfSteps(cfg: Config, src: seq<PathObservation>)
    ensures EffectsOf(Steps(cfg, src)) == StepsEffects(cfg, src)
    decreases |src|
  {
    if src != [] {
      assert Steps(cfg, src)[1..] == Steps(cfg, src[1..]);
      EffectsOfSteps(cfg, src[1..]);
    }
  }

  /** With no source path the run exits with code 1 before probing, uploading or writing anything. */
  lemma EmptySourceList(cfg: Config, probe: Probe)
    ensures var t := Run(cfg, probe, []);
      && t.end == Exited(NoFilesSpecified) && ExitStatus(t.end) == 1
      && t.outcomes == []
      && t.effects == [Stderr(NO_FILES_MESSAGE)]
  {
  }

  /** A failed probe ends the run with code 4; no path is examined, uploaded or written. */
  lemma UnavailableService(cfg: Config, reason: string, src: seq<PathObservation>)
    requires src != []
    ensures var t := Run(cfg, Unavailable(reason), src);
      && t.end == Exited(FesterUnavailable) && ExitStatus(t.end) == 4
      && t.outcomes == []
      && t.effects == [ProbeRequest(cfg), Stderr(UnavailableMessage(reason)), LogError(UnavailableMessage(reason))]
  {
  }

  /** How the pass ends: as the first path that ends the run dictates, or normally. */
  function PassEnd(strict: bool, src: seq<PathObservation>): Termination {
    var k := FirstHalt(strict, src);
    if k < |src| then Ending(strict, Classify(src[k])) else Completed
  }

  /** A run with a healthy service and some path, in closed form. */
  lemma RunClosedForm(cfg: Config, src: seq<PathObservation>)
    requires src != []
    ensures var n := ProcessedCount(cfg.strict, src);
      Run(cfg, Healthy, src) ==
        RunTrace(ClassifyAll(src[..n]), [ProbeRequest(cfg)] + StepsEffects(cfg, src[..n]), PassEnd(cfg.strict, src))
  {
    ProcessPathsClosedForm(cfg, src);
  }

  lemma FirstHaltAt(strict: bool, src: seq<PathObservation>, k: nat)
    requires k < |src| && Halts(strict, Classify(src[k]))
    requires forall j :: 0 <= j < k ==> !Halts(strict, Classify(src[j]))
    ensures FirstHalt(strict, src) == k
  {
  }

  lemma FirstHaltNone(strict: bool, src: seq<PathObservation>)
    requires forall j :: 0 <= j < |src| ==> !Halts(strict, Classify(src[j]))
    ensures FirstHalt(strict, src) == |src|
  {
  }

  /**
   * Without strict mode every path is processed exactly once, in order, and the
   * run completes normally, provided no error page lacks both an error-message
   * element and a title.
   */
  lemma NonStrictVisitsEveryPath(cfg: Config, src: seq<PathObservation>)
    requires !cfg.strict && src != []
    requires forall i :: 0 <= i < |src| ==> !Classify(src[i]).UnreadableErrorPage?
    ensures var t := Run(cfg, Healthy, src);
      t.outcomes == ClassifyAll(src) && t.end == Completed && ExitStatus(t.end) == 0
  {
    RunClosedForm(cfg, src);
    FirstHaltNone(false, src);
    assert src[..|src|] == src;
  }

  /**
   * Whatever the mode, the first error page lacking both an error-message
   * element and a title crashes the run there: later paths are not processed.
   */
  lemma UnreadablePageCrashes(cfg: Config, src: seq<PathObservation>, k: nat)
    requires k < |src| && Classify(src[k]).UnreadableErrorPage?
    requires forall j :: 0 <= j < k ==> !Halts(cfg.strict, Classify(src[j]))
    ensures var t := Run(cfg, Healthy, src);
      t.outcomes == ClassifyAll(src[..k + 1]) && t.end == Crashed && ExitStatus(t.end) == 1
  {
    RunClosedForm(cfg, src);
    FirstHaltAt(cfg.strict, src, k);
    assert ProcessedCount(cfg.strict, src) == k + 1;
    assert PassEnd(cfg.strict, src) == Crashed;
  }

  /** Without strict mode the run never exits with a per-path code (2, 3, 5 or 6). */
  lemma NonStrictExitStatus(cfg: Config, probe: Probe, src: seq<PathObservation>)
    requires !cfg.strict
    ensures ExitStatus(Run(cfg, probe, src).end) in {0, 1, 4}
  {
    if src != [] && probe == Healthy {
      RunClosedForm(cfg, src);
    }
  }

  /**
   * The exit code a failing path gives in strict mode, written out per
   * outcome as a reference table against which `Fault` and `Code` are checked.
   */
  function PathExitCode(o: Outcome): nat {
    match o
    case Nonexistent => 2
    case NotCsv => 3
    case UploadFailed(_, _) => 5
    case SavedEmpty => 6
    case _ => 0
  }

  /** In strict mode a path that does not end in a saved result ends the run. */
  lemma StrictHalts(o: Outcome)
    ensures Halts(true, o) <==> !o.Saved?
  {
  }

  /**
   * In strict mode the first path whose processing fails ends the run with its
   * own exit code: 2 when missing, 3 when not a CSV, 5 for a non-201 response,
   * 6 for a zero-byte result. Only the paths up to it are processed, so no later
   * path is uploaded or written.
   */
  lemma StrictStopsAtFirstError(cfg: Config, src: seq<PathObservation>, k: nat)
    requires cfg.strict
    requires k < |src|
    requires forall j :: 0 <= j < k ==> Classify(src[j]).Saved?
    requires Fault(Classify(src[k])).Some?
    ensures var t := Run(cfg, Healthy, src);
      && ProcessedCount(cfg.strict, src) == k + 1
      && t.outcomes == ClassifyAll(src[..k + 1])
      && t.end == Exited(Fault(Classify(src[k])).value)
      && ExitStatus(t.end) == PathExitCode(Classify(src[k]))
  {
    var o := Classify(src[k]);
    StrictFirstHalt(src, k);
    RunClosedForm(cfg, src);
    assert PassEnd(cfg.strict, src) == Exited(Fault(o).value);
    FaultExitCode(o);
  }

  lemma FaultExitCode(o: Outcome)
    requires Fault(o).Some?
    ensures ExitStatus(Exited(Fault(o).value)) == PathExitCode(o)
  {
  }

  lemma StrictFirstHalt(src: seq<PathObservation>, k: nat)
    requires k < |src|
    requires forall j :: 0 <= j < k ==> Classify(src[j]).Saved?
    requires Fault(Classify(src[k])).Some?
    ensures FirstHalt(true, src) == k && ProcessedCount(true, src) == k + 1
  {
    forall j | 0 <= j < k
      ensures !Halts(true, Classify(src[j]))
    {
      assert Classify(src[j]).Saved?;
    }
    FirstHaltAt(true, src, k);
  }

  /** In strict mode a run in which every path is saved completes normally with all paths processed. */
  lemma StrictAllSaved(cfg: Config, src: seq<PathObservation>)
    requires cfg.strict && src != []
    requires forall j :: 0 <= j < |src| ==> Classify(src[j]).Saved?
    ensures var t := Run(cfg, Healthy, src);
      t.outcomes == ClassifyAll(src) && t.end == Completed && ExitStatus(t.end) == 0
  {
    RunClosedForm(cfg, src);
    FirstHaltNone(true, src);
    assert src[..|src|] == src;
  }

  // ---------------------------------------------------------------------------
  // Requests issued and files written

  predicate IsGet(e: Effect) { e.Get? }
  predicate IsPost(e: Effect) { e.Post? }
  predicate IsWrite(e: Effect) { e.Write? }

  /** The effect itself when it is kept, nothing otherwise. */
  function Kept(e: Effect, keep: Effect -> bool): seq<Effect> {
    if keep(e) then [e] else []
  }

  /** The effects of one kind, in order. */
  function Only(effects: seq<Effect>, keep: Effect -> bool): seq<Effect>
    decreases |effects|
  {
    if effects == [] then [] else Kept(effects[0], keep) + Only(effects[1..], keep)
  }

  lemma {:induction false} OnlyConcat(a: seq<Effect>, b: seq<Effect>, keep: Effect -> bool)
    ensures Only(a + b, keep) == Only(a, keep) + Only(b, keep)
    decreases |a|
  {
    if a == [] {
      assert a + b == b;
    } else {
      var ab := a + b;
      assert ab[0] == a[0] && ab[1..] == a[1..] + b;
      OnlyConcat(a[1..], b, keep);
      calc {
        Only(ab, keep);
        Kept(a[0], keep) + Only(a[1..] + b, keep);
        Kept(a[0], keep) + (Only(a[1..], keep) + Only(b, keep));
        (Kept(a[0], keep) + Only(a[1..], keep)) + Only(b, keep);
      }
    }
  }

  lemma OnlySingle(e: Effect, keep: Effect -> bool)
    ensures Only([e], keep) == Kept(e, keep)
  {
    assert [e][1..] == [];
  }

  /** The reference list of uploads: one for each existing CSV path, in order. */
  function ExpectedUploads(cfg: Config, src: seq<PathObservation>): seq<Effect>
    decreases |src|
  {
    if src == [] then []
    else (if Reached(src[0]) then [Post(UploadOf(cfg, src[0]))] else []) + ExpectedUploads(cfg, src[1..])
  }

  /**
   * The reference list of writes: one for each existing CSV path answered with
   * 201, holding the response body verbatim, in order.
   */
  function ExpectedWrites(cfg: Config, src: seq<PathObservation>): seq<Effect>
    decreases |src|
  {
    if src == [] then []
    else
      var obs := src[0];
      (if Reached(obs) && obs.status == 201 then [Write(JoinPath(cfg.out, Name(obs.path)), obs.body)] else []) +
      ExpectedWrites(cfg, src[1..])
  }

  /** A filter that keeps no terminal line, log line or banner. */
  ghost predicate KeepsNoText(keep: Effect -> bool) {
    && (forall line :: !keep(Stdout(line)))
    && (forall line :: !keep(Stderr(line)))
    && (forall line :: !keep(LogError(line)))
    && !keep(Celebrate)
  }

  lemma OnlyAppend(a: seq<Effect>, e: Effect, keep: Effect -> bool)
    ensures Only(a + [e], keep) == Only(a, keep) + Kept(e, keep)
  {
    OnlyConcat(a, [e], keep);
    OnlySingle(e, keep);
  }

  lemma OnlyReport(message: string, keep: Effect -> bool)
    requires KeepsNoText(keep)
    ensures Only(Report(message), keep) == []
  {
    assert Report(message) == [Stderr(message)] + [LogError(message)];
    OnlyAppend([Stderr(message)], LogError(message), keep);
    OnlySingle(Stderr(message), keep);
  }

  lemma SentOnly(cfg: Config, obs: PathObservation, keep: Effect -> bool)
    requires KeepsNoText(keep)
    ensures Only(Sent(cfg, obs), keep) == Kept(Post(UploadOf(cfg, obs)), keep)
  {
    var uploading := Stdout(UploadingMessage(Name(obs.path), CollectionsUrl(cfg.server)));
    OnlyAppend([uploading], Post(UploadOf(cfg, obs)), keep);
    OnlySingle(uploading, keep);
  }

  /** An uploaded path answered with 201: the POST and the write. */
  lemma SavedStepOnly(cfg: Config, obs: PathObservation, keep: Effect -> bool)
    requires KeepsNoText(keep) && Reached(obs) && obs.status == 201
    ensures Only(StepEffects(cfg, obs), keep) ==
      Kept(Post(UploadOf(cfg, obs)), keep) + Kept(Write(JoinPath(cfg.out, Name(obs.path)), obs.body), keep)
  {
    var name := Name(obs.path);
    var sent := Sent(cfg, obs);
    var write := Write(JoinPath(cfg.out, name), obs.body);
    var uploaded := sent + [Stdout(UploadedMessage(name))];
    var saved := uploaded + [write];
    SentOnly(cfg, obs, keep);
    OnlyAppend(sent, Stdout(UploadedMessage(name)), keep);
    OnlyAppend(uploaded, write, keep);
    if |obs.body| == 0 {
      assert StepEffects(cfg, obs) == saved + Report(WriteFailedMessage(name));
      OnlyConcat(saved, Report(WriteFailedMessage(name)), keep);
      OnlyReport(WriteFailedMessage(name), keep);
    } else {
      assert StepEffects(cfg, obs) == saved + [Celebrate];
      OnlyAppend(saved, Celebrate, keep);
    }
  }

  /** An uploaded path answered otherwise: the POST only. */
  lemma RefusedStepOnly(cfg: Config, obs: PathObservation, keep: Effect -> bool)
    requires KeepsNoText(keep) && Reached(obs) && obs.status != 201
    ensures Only(StepEffects(cfg, obs), keep) == Kept(Post(UploadOf(cfg, obs)), keep)
  {
    var sent := Sent(cfg, obs);
    SentOnly(cfg, obs, keep);
    if HasCause(obs.page) {
      var message := FailureMessage(Name(obs.path), ErrorCause(obs.page), obs.status);
      assert StepEffects(cfg, obs) == sent + Report(message);
      OnlyConcat(sent, Report(message), keep);
      OnlyReport(message, keep);
    } else {
      assert StepEffects(cfg, obs) == sent;
    }
  }

  /** What a filter that keeps no text sees of the processing of one path. */
  lemma StepOnly(cfg: Config, obs: PathObservation, keep: Effect -> bool)
    requires KeepsNoText(keep)
    ensures var post := Kept(Post(UploadOf(cfg, obs)), keep);
      var write := Kept(Write(JoinPath(cfg.out, Name(obs.path)), obs.body), keep);
      Only(StepEffects(cfg, obs), keep) ==
        if !Reached(obs) then [] else if obs.status == 201 then post + write else post
  {
    var name := Name(obs.path);
    if !obs.present {
      OnlyReport(MissingMessage(name), keep);
    } else if !IsCsv(name) {
      OnlyReport(NotCsvMessage(name), keep);
    } else if obs.status == 201 {
      SavedStepOnly(cfg, obs, keep);
    } else {
      RefusedStepOnly(cfg, obs, keep);
    }
  }

  lemma KindsKeepNoText()
    ensures KeepsNoText(IsGet) && KeepsNoText(IsPost) && KeepsNoText(IsWrite)
  {
  }

  /** Processing one path issues one upload exactly when it reaches the upload, and writes exactly on 201. */
  lemma StepRequestsAndWrites(cfg: Config, obs: PathObservation)
    ensures Only(StepEffects(cfg, obs), IsGet) == []
    ensures Only(StepEffects(cfg, obs), IsPost) == (if Reached(obs) then [Post(UploadOf(cfg, obs))] else [])
    ensures Only(StepEffects(cfg, obs), IsWrite) ==
      (if Reached(obs) && obs.status == 201 then [Write(JoinPath(cfg.out, Name(obs.path)), obs.body)] else [])
  {
    KindsKeepNoText();
    StepGets(cfg, obs);
    StepPosts(cfg, obs);
    StepWrites(cfg, obs);
  }

  lemma StepGets(cfg: Config, obs: PathObservation)
    requires KeepsNoText(IsGet)
    ensures Only(StepEffects(cfg, obs), IsGet) == []
  {
    StepOnly(cfg, obs, IsGet);
  }

  lemma StepPosts(cfg: Config, obs: PathObservation)
    requires KeepsNoText(IsPost)
    ensures Only(StepEffects(cfg, obs), IsPost) == (if Reached(obs) then [Post(UploadOf(cfg, obs))] else [])
  {
    StepOnly(cfg, obs, IsPost);
  }

  lemma StepWrites(cfg: Config, obs: PathObservation)
    requires KeepsNoText(IsWrite)
    ensures Only(StepEffects(cfg, obs), IsWrite) ==
      (if Reached(obs) && obs.status == 201 then [Write(JoinPath(cfg.out, Name(obs.path)), obs.body)] else [])
  {
    StepOnly(cfg, obs, IsWrite);
  }

  /** Over a sequence of paths, the uploads and writes are exactly the reference lists. */
  lemma {:induction false} StepsRequestsAndWrites(cfg: Config, src: seq<PathObservation>)
    ensures Only(StepsEffects(cfg, src), IsGet) == []
    ensures Only(StepsEffects(cfg, src), IsPost) == ExpectedUploads(cfg, src)
    ensures Only(StepsEffects(cfg, src), IsWrite) == ExpectedWrites(cfg, src)
    decreases |src|
  {
    if src != [] {
      StepRequestsAndWrites(cfg, src[0]);
      StepsRequestsAndWrites(cfg, src[1..]);
      var head := StepEffects(cfg, src[0]);
      var rest := StepsEffects(cfg, src[1..]);
      OnlyConcat(head, rest, IsGet);
      OnlyConcat(head, rest, IsPost);
      OnlyConcat(head, rest, IsWrite);
    }
  }

  /**
   * Over a whole run: the service is probed once exactly when some path is
   * given; one upload is issued for every existing CSV path processed and a
   * result file is written for every one answered with 201, in order, and
   * nothing is uploaded or written otherwise.
   */
  lemma RunRequestsAndWrites(cfg: Config, probe: Probe, src: seq<PathObservation>)
    ensures var t := Run(cfg, probe, src);
      var n := ProcessedCount(cfg.strict, src);
      && Only(t.effects, IsGet) == (if src == [] then [] else [ProbeRequest(cfg)])
      && Only(t.effects, IsPost) == (if src == [] || probe != Healthy then [] else ExpectedUploads(cfg, src[..n]))
      && Only(t.effects, IsWrite) == (if src == [] || probe != Healthy then [] else ExpectedWrites(cfg, src[..n]))
  {
    if src == [] {
      OnlySingle(Stderr(NO_FILES_MESSAGE), IsGet);
      OnlySingle(Stderr(NO_FILES_MESSAGE), IsPost);
      OnlySingle(Stderr(NO_FILES_MESSAGE), IsWrite);
    } else {
      match probe
      case Unavailable(reason) =>
        UnavailableRequestsAndWrites(cfg, reason);
      case Healthy =>
        HealthyRequestsAndWrites(cfg, src);
    }
  }

  lemma UnavailableRequestsAndWrites(cfg: Config, reason: string)
    ensures var effects := [ProbeRequest(cfg)] + Report(UnavailableMessage(reason));
      && Only(effects, IsGet) == [ProbeRequest(cfg)]
      && Only(effects, IsPost) == []
      && Only(effects, IsWrite) == []
  {
    var probing := [ProbeRequest(cfg)];
    var report := Report(UnavailableMessage(reason));
    KindsKeepNoText();
    OnlySingle(ProbeRequest(cfg), IsGet);
    OnlySingle(ProbeRequest(cfg), IsPost);
    OnlySingle(ProbeRequest(cfg), IsWrite);
    OnlyReport(UnavailableMessage(reason), IsGet);
    OnlyReport(UnavailableMessage(reason), IsPost);
    OnlyReport(UnavailableMessage(reason), IsWrite);
    OnlyConcat(probing, report, IsGet);
    OnlyConcat(probing, report, IsPost);
    OnlyConcat(probing, report, IsWrite);
  }

  lemma HealthyRequestsAndWrites(cfg: Config, src: seq<PathObservation>)
    requires src != []
    ensures var effects := Run(cfg, Healthy, src).effects;
      var n := ProcessedCount(cfg.strict, src);
      && Only(effects, IsGet) == [ProbeRequest(cfg)]
      && Only(effects, IsPost) == ExpectedUploads(cfg, src[..n])
      && Only(effects, IsWrite) == ExpectedWrites(cfg, src[..n])
  {
    var probing := [ProbeRequest(cfg)];
    OnlySingle(ProbeRequest(cfg), IsGet);
    OnlySingle(ProbeRequest(cfg), IsPost);
    OnlySingle(ProbeRequest(cfg), IsWrite);
    RunClosedForm(cfg, src);
    var done := src[..ProcessedCount(cfg.strict, src)];
    StepsRequestsAndWrites(cfg, done);
    OnlyConcat(probing, StepsEffects(cfg, done), IsGet);
    OnlyConcat(probing, StepsEffects(cfg, done), IsPost);
    OnlyConcat(probing, StepsEffects(cfg, done), IsWrite);
  }

  /** The result file of an uploaded path is written under the output directory with the path's own name. */
  lemma WrittenFileKeepsName(cfg: Config, obs: PathObservation)
    requires Reached(obs)
    ensures var n := Name(obs.path);
      var p := JoinPath(cfg.out, n);
      && Name(p) == n
      && (p == cfg.out + n || p == cfg.out + "/" + n)
      && (p == cfg.out + "/" + n <==> cfg.out != "" && cfg.out[|cfg.out| - 1] != '/')
  {
    var n := Name(obs.path);
    CsvNameIsComponent(obs.path);
    NameOfJoin(cfg.out, n);
    assert n[0] != '/';
  }

  /**
   * A non-201 response with a readable error page is reported, on standard
   * error and in the log, as a message from which the cause and the status
   * can be read back.
   */
  lemma FailureIsReported(cfg: Config, obs: PathObservation)
    requires Classify(obs).UploadFailed?
    ensures var effects := StepEffects(cfg, obs);
      var m := FailureMessage(Name(obs.path), ErrorCause(obs.page), obs.status);
      var head := FAILURE_PREFIX + Name(obs.path) + ": ";
      && |effects| == 4
      && effects[2] == Stderr(m) && effects[3] == LogError(m)
      && |m| == |head| + |ErrorCause(obs.page)| + 11
      && m[..|head|] == head
      && m[|head|..|m| - 11] == ErrorCause(obs.page)
      && Text.ParseDecimal(m[|m| - 4..|m| - 1]) == obs.status
  {
    FailureMessageParts(Name(obs.path), ErrorCause(obs.page), obs.status);
  }

  /** The message with which a per-path error is reported. */
  function FaultMessage(obs: PathObservation): string
    requires Fault(Classify(obs)).Some?
  {
    var name := Name(obs.path);
    match Classify(obs)
    case Nonexistent => MissingMessage(name)
    case NotCsv => NotCsvMessage(name)
    case SavedEmpty => WriteFailedMessage(name)
    case UploadFailed(status, cause) => FailureMessage(name, cause, status)
    case _ => ""
  }

  /**
   * Every per-path error is echoed to standard error and logged, as the last
   * two effects of its path; a path saved with a non-empty result ends with
   * the banner instead.
   */
  lemma FaultIsReported(cfg: Config, obs: PathObservation)
    ensures var effects := StepEffects(cfg, obs);
      && (Fault(Classify(obs)).Some? ==>
            |effects| >= 2 && effects[|effects| - 2..] == [Stderr(FaultMessage(obs)), LogError(FaultMessage(obs))])
      && (Classify(obs).Saved? ==> |effects| >= 1 && effects[|effects| - 1] == Celebrate)
  {
  }
}
