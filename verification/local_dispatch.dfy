/**
 * The local few-shot dispatcher (web/image_processing_view/run_gpu_python_code_local.php),
 * for a GPU on the web server itself: it passes the request's parameters through
 * unchecked, derives the new model key as the remote dispatcher does, resets the
 * success flag, copies the save's images under the session's prefix, runs the worker
 * on the save directory, and then either registers the trained model and takes the
 * worker's outputs over the canonical documents, or logs the failure and answers 502.
 *
 * The worker's run is an input: the files it leaves in the save directory.
 */
module LocalDispatch {
  import opened Wrappers
  import opened PhpValues
  import opened Ledger
  import opened SaveFiles
  import opened Strings
  import Utils
  import opened Site
  import GpuDispatch

  // ---------------------------------------------------------------------------
  // The execution parameters
  // ---------------------------------------------------------------------------

  /** The request's parameters, kept as sent. */
  function PassedThrough(params: Payload): (kept: map<Param, Value>)
    ensures forall p :: p in kept <==> Key(p) in params
    ensures forall p :: p in kept ==> kept[p] == params[Key(p)]
  {
    map p | p in GpuDispatch.AllParams && Key(p) in params :: params[Key(p)]
  }

  /**
   * The start entry of a local run shows every logged parameter exactly as the
   * request sent it (empty when absent); a flag shows "yes" when the sent value is truthy.
   */
  lemma StartEntryAsPassed(k: Kind, params: Payload)
    ensures var e := GpuDispatch.StartEntry(k, PassedThrough(params));
            var ps := GpuDispatch.LoggedParams(k);
            && |e| == 1 + |ps| && e[0] == Starting(GpuDispatch.JobName(k))
            && forall i :: 0 <= i < |ps| ==>
                 e[i + 1] == if ps[i] == ReadSpaces || ps[i] == UserValidation then Toggle(ps[i], Truthy(Get(params, Key(ps[i]))))
                             else Setting(ps[i], Get(params, Key(ps[i])))
  {
    var e := GpuDispatch.StartEntry(k, PassedThrough(params));
    var ps := GpuDispatch.LoggedParams(k);
    forall i | 0 <= i < |ps|
      ensures e[i + 1] == if ps[i] == ReadSpaces || ps[i] == UserValidation then Toggle(ps[i], Truthy(Get(params, Key(ps[i]))))
                          else Setting(ps[i], Get(params, Key(ps[i])))
    {
      assert e[i + 1] == GpuDispatch.ParameterLine(PassedThrough(params), ps[i]);
    }
  }

  /** A string parameter as the key derivation reads it; a non-string reads as absent. */
  function TextOf(params: Payload, p: Param): Option<string>
  {
    if Key(p) in params && params[Key(p)].Str? then Some(params[Key(p)].s) else None
  }

  /** The parameters file: the request's parameters, the images of the boxes document and the new model key. */
  function LocalParams(params: Payload, images: seq<string>, session: string): ExecParams
  {
    ExecParams(PassedThrough(params), images,
      GpuDispatch.NewModelKey(TextOf(params, SelectedModel), TextOf(params, SelectedAlphabet), session))
  }

  /**
   * The key is derived as the remote dispatcher derives it: the same for a string
   * model whose alphabet the remote dispatcher keeps or that was not sent, and absent
   * for a model that was not sent.
   */
  lemma KeyAsRemote(k: Kind, params: Payload, images: seq<string>, session: string)
    requires var a := GpuDispatch.Sent(params, SelectedAlphabet); a.Null? || GpuDispatch.Admissible(SelectedAlphabet, a)
    requires var m := GpuDispatch.Sent(params, SelectedModel); m.Null? || m.Str?
    ensures LocalParams(params, images, session).newModelKey
            == GpuDispatch.ParamsFor(GpuDispatch.Rebuilt(k, params), images, session).newModelKey
  {
    var kept := GpuDispatch.Rebuilt(k, params);
    assert SelectedModel in GpuDispatch.AllParams && GpuDispatch.Applies(k, SelectedModel);
    assert SelectedAlphabet in GpuDispatch.AllParams && GpuDispatch.Applies(k, SelectedAlphabet);
    assert GpuDispatch.StringParam(kept, SelectedModel) == TextOf(params, SelectedModel);
    assert GpuDispatch.StringParam(kept, SelectedAlphabet) == TextOf(params, SelectedAlphabet);
  }

  // ---------------------------------------------------------------------------
  // The image copies
  // ---------------------------------------------------------------------------

  /** copy("$saveDir/$img", "$saveDir/$sessionID-$img") for each image in turn; a missing image is skipped. */
  function Copied(dir: Dir, session: string, images: seq<string>): Dir
    decreases |images|
  {
    if images == [] then dir
    else
      var n := |images| - 1;
      var d := Copied(dir, session, images[..n]);
      if images[n] in d then d[StagedName(session, images[n]) := d[images[n]]] else d
  }

  /** A name of the session's copies. */
  predicate OfSession(session: string, f: string)
  {
    IsPrefix(session + "-", f)
  }

  lemma StagedIsOfSession(session: string, f: string)
    ensures OfSession(session, StagedName(session, f))
  {
    StagedNameSplits(session, f);
  }

  /** The copies add files of the session only; every other file stays as it was. */
  lemma {:induction false} CopiesKeepOthers(dir: Dir, session: string, images: seq<string>, f: string)
    requires f in dir && !OfSession(session, f)
    ensures f in Copied(dir, session, images) && Copied(dir, session, images)[f] == dir[f]
    decreases |images|
  {
    if images != [] {
      var n := |images| - 1;
      CopiesKeepOthers(dir, session, images[..n], f);
      StagedIsOfSession(session, images[n]);
    }
  }

  /** Nothing is removed by the copies. */
  lemma {:induction false} CopiesRemoveNothing(dir: Dir, session: string, images: seq<string>)
    ensures dir.Keys <= Copied(dir, session, images).Keys
    decreases |images|
  {
    if images != [] {
      CopiesRemoveNothing(dir, session, images[..|images| - 1]);
    }
  }

  /**
   * When the save holds no file of the session yet, each of its images listed is
   * copied, with its content, to "<sessionID>-<image>".
   */
  lemma {:induction false} CopiesStageImages(dir: Dir, session: string, images: seq<string>, i: nat)
    requires forall f :: f in dir ==> !OfSession(session, f)
    requires i < |images| && images[i] in dir
    ensures StagedName(session, images[i]) in Copied(dir, session, images)
    ensures Copied(dir, session, images)[StagedName(session, images[i])] == dir[images[i]]
    decreases |images|
  {
    var n := |images| - 1;
    var d := Copied(dir, session, images[..n]);
    CopiesKeepOthers(dir, session, images[..n], images[i]);
    if i < n {
      CopiesStageImages(dir, session, images[..n], i);
      GpuDispatch.StagedNameInjective(session, images[n], images[i]);
      if images[n] == images[i] {
        CopiesKeepOthers(dir, session, images[..n], images[n]);
      }
    }
  }

  // ---------------------------------------------------------------------------
  // After the worker
  // ---------------------------------------------------------------------------

  /** The worker's output for "<base>.json" in the save directory (no session prefix here). */
  function LocalOutput(base: string): string
  {
    base + Suffix + ".json"
  }

  /** The files the worker writes in the save directory: its four outputs and the success flag. */
  predicate WorkerOnly(worker: Dir)
  {
    forall f :: f in worker ==>
      f == LocalOutput("bounding_boxes") || f == LocalOutput("transcription")
      || f == LocalOutput("generated_transcription") || f == LocalOutput("lookup_table") || f == FlagFile
  }

  datatype Exit =
    | MissingSave  // 400
    | BadScript    // 400
    | Crashed      // an uncaught error, logged by the catch-all
    | RunFailed    // 502
    | Completed    // 200

  function StatusOf(exit: Exit): int
  {
    match exit
    case MissingSave => 400
    case BadScript => 400
    case Crashed => 200
    case RunFailed => 502
    case Completed => 200
  }

  /** The boxes document must decode before anything is written. */
  predicate Readable(dir: Dir)
  {
    BoxesFile in dir && dir[BoxesFile].Boxes?
  }

  /** The save prepared for the worker: the flag reset, the parameters written, the images copied. */
  function Staged(dir: Dir, session: string, p: ExecParams): Dir
  {
    Copied(dir[FlagFile := Flag(Some(0))][ParametersFile := Parameters(p)], session, p.images)
  }

  /** A worker output read back: its content, or what json_encode(null) writes when the file is missing. */
  function OutputOrNull(d: Dir, base: string): File
  {
    if LocalOutput(base) in d then d[LocalOutput(base)] else Blob("null")
  }

  /** The canonical documents after a successful run. */
  function TakeOver(d: Dir): (r: Dir)
    ensures BoxesFile in r && r[BoxesFile] == OutputOrNull(d, "bounding_boxes")
    ensures TranscriptionFile in r && r[TranscriptionFile] == OutputOrNull(d, "transcription")
    ensures LocalOutput("generated_transcription") in d ==>
              GeneratedFile in r && r[GeneratedFile] == d[LocalOutput("generated_transcription")]
    ensures LocalOutput("generated_transcription") !in d ==> (GeneratedFile in r <==> GeneratedFile in d)
    ensures LocalOutput("generated_transcription") !in d && GeneratedFile in d ==> r[GeneratedFile] == d[GeneratedFile]
    ensures forall f :: f in d && f != BoxesFile && f != TranscriptionFile && f != GeneratedFile ==> f in r && r[f] == d[f]
  {
    var g := LocalOutput("generated_transcription");
    var withGenerated := if g in d then d[GeneratedFile := d[g]] else d;
    withGenerated[BoxesFile := OutputOrNull(d, "bounding_boxes")][TranscriptionFile := OutputOrNull(d, "transcription")]
  }

  /** What happens after the run, from the save directory `d` the worker left (parameters file removed). */
  datatype Finish = Finish(exit: Exit, dir: Dir, registry: Option<Registry>, lines: seq<LogLine>)

  function AfterRun(d: Dir, reg: Option<Registry>, k: Kind, p: ExecParams): (r: Finish)
    ensures r.exit == Completed || r.exit == RunFailed || r.exit == Crashed
    ensures r.exit == RunFailed <==> FlagFile in d && d[FlagFile].Flag? && d[FlagFile].success != Some(1)
  {
    if !(FlagFile in d && d[FlagFile].Flag?) then Finish(Crashed, d, reg, [])
    else
      var d' := d - {FlagFile};
      if d[FlagFile].success != Some(1) then Finish(RunFailed, d', reg, [Failed(GpuDispatch.JobName(k))])
      else if k == Training && reg.None? then Finish(Crashed, d', reg, [])
      else
        var reg' := if k == Training then Some(RegisterIfAbsent(reg.value, ArrayKey(p.newModelKey), GpuDispatch.StringParam(p.kept, NewModelName)))
                    else reg;
        var out := LocalOutput("lookup_table");
        if GpuDispatch.Validating(k, p) && !(out in d' && d'[out].Table?) then Finish(Crashed, d', reg', [])
        else
          var received := if out in d' then d'[out] else Blob("");
          Finish(Completed, TakeOver(d'), reg', GpuDispatch.CerLines(k, p, received) + [Finished(GpuDispatch.JobName(k))])
  }

  /** The run succeeds exactly when the flag file says image_processing_success === 1. */
  lemma SuccessIffFlag(d: Dir, reg: Option<Registry>, k: Kind, p: ExecParams)
    ensures var r := AfterRun(d, reg, k, p);
            && (r.exit == Completed ==> FlagFile in d && d[FlagFile] == Flag(Some(1)))
            && (r.exit == RunFailed ==> StatusOf(r.exit) == 502 && r.registry == reg && r.lines == [Failed(GpuDispatch.JobName(k))])
            && ((FlagFile in d && d[FlagFile] == Flag(Some(1)) && (k == Training ==> reg.Some?) && !GpuDispatch.Validating(k, p))
                  ==> r.exit == Completed)
  {
  }

  /**
   * A successful training registers its model key only if absent, keeping every name
   * registered before; a recognition or a failed run leaves the registry alone.
   */
  lemma RegistersOnlyIfAbsent(d: Dir, reg: Option<Registry>, k: Kind, p: ExecParams)
    ensures var r := AfterRun(d, reg, k, p);
            && (reg.Some? ==> r.registry.Some? && forall key :: key in reg.value ==> key in r.registry.value && r.registry.value[key] == reg.value[key])
            && (reg.Some? && r.exit == Completed && k == Training ==> ArrayKey(p.newModelKey) in r.registry.value)
            && (k == Recognition || r.exit == RunFailed ==> r.registry == reg)
  {
  }

  /**
   * The canonical documents change only on success, and then to the worker's
   * outputs; on failure they stay as they were.
   */
  lemma OverwriteOnlyOnSuccess(d: Dir, reg: Option<Registry>, k: Kind, p: ExecParams, f: string)
    requires f == BoxesFile || f == TranscriptionFile || f == GeneratedFile
    ensures var r := AfterRun(d, reg, k, p);
            && (r.exit != Completed ==> (f in r.dir <==> f in d) && (f in d ==> r.dir[f] == d[f]))
            && (r.exit == Completed ==> r.dir[BoxesFile] == OutputOrNull(d, "bounding_boxes")
                                        && r.dir[TranscriptionFile] == OutputOrNull(d, "transcription"))
  {
  }

  /**
   * Over a whole run whose worker writes only its outputs and the flag, a canonical
   * document the save had is still what it was unless the run completed.
   */
  lemma FailedRunKeepsDocuments(dir: Dir, session: string, p: ExecParams, worker: Dir, reg: Option<Registry>, k: Kind, f: string)
    requires f == BoxesFile || f == TranscriptionFile || f == GeneratedFile
    requires WorkerOnly(worker) && !OfSession(session, f) && f in dir
    ensures var r := AfterRun(Staged(dir, session, p) + worker - {ParametersFile}, reg, k, p);
            r.exit != Completed ==> f in r.dir && r.dir[f] == dir[f]
  {
    var prepared := dir[FlagFile := Flag(Some(0))][ParametersFile := Parameters(p)];
    CopiesKeepOthers(prepared, session, p.images, f);
    assert f !in worker;
    OverwriteOnlyOnSuccess(Staged(dir, session, p) + worker - {ParametersFile}, reg, k, p, f);
  }

  // ---------------------------------------------------------------------------
  // The request
  // ---------------------------------------------------------------------------

  /** The copy loop over "array_images". */
  method CopyImages(site: Site, save: string, session: string, images: seq<string>)
    requires save in site.saves
    modifies site
    ensures site.saves == old(site.saves)[save := Copied(old(site.saves[save]), session, images)]
    ensures site.project == old(site.project) && site.images == old(site.images) && site.logs == old(site.logs)
    ensures site.errors == old(site.errors) && site.remote == old(site.remote)
  {
    var dir := site.saves[save];
    var i := 0;
    while i < |images|
      invariant 0 <= i <= |images|
      invariant site.saves == old(site.saves)[save := Copied(dir, session, images[..i])]
      invariant site.project == old(site.project) && site.images == old(site.images) && site.logs == old(site.logs)
      invariant site.errors == old(site.errors) && site.remote == old(site.remote)
    {
      assert images[..i + 1][..i] == images[..i];
      var d := site.saves[save];
      if images[i] in d {
        site.saves := site.saves[save := d[StagedName(session, images[i]) := d[images[i]]]];
      }
      i := i + 1;
    }
    assert images[..i] == images;
  }

  /** The error record a way out leaves in the save's error.txt. */
  function ErrorsOf(path: string, exit: Exit): seq<ErrorRecord>
  {
    match exit
    case RunFailed => [ErrorRecord(path, PythonFailed, None)]
    case Crashed => [ErrorRecord(path, Uncaught, None)]
    case _ => []
  }

  /** Everything before the worker runs: the flag reset, the start logged, the parameters written, the copies made. */
  method Prepare(site: Site, save: string, k: Kind, session: string, p: ExecParams)
    requires save in site.saves
    modifies site
    ensures site.saves == old(site.saves)[save := Staged(old(site.saves[save]), session, p)]
    ensures site.logs == old(site.logs)[save := old(site.LogOf(save)) + GpuDispatch.StartEntry(k, p.kept)]
    ensures site.project == old(site.project) && site.images == old(site.images)
    ensures site.errors == old(site.errors) && site.remote == old(site.remote)
  {
    // the flag reset and the log entry come first, then the parameters file
    var entry := GpuDispatch.StartEntry(k, p.kept);
    var dir := site.saves[save][FlagFile := Flag(Some(0))][ParametersFile := Parameters(p)];
    site.AppendLog(save, entry);
    site.saves := site.saves[save := dir];
    CopyImages(site, save, session, p.images);
  }

  /** The worker's run and everything after it: the parameters file removed, the flag read, the outcome. */
  method Conclude(site: Site, save: string, k: Kind, p: ExecParams, worker: Dir) returns (exit: Exit)
    requires save in site.saves
    modifies site
    ensures var r := AfterRun(old(site.saves[save]) + worker - {ParametersFile}, old(site.project.registry), k, p);
            && exit == r.exit
            && site.saves == old(site.saves)[save := r.dir]
            && site.project == old(site.project).(registry := r.registry)
            && site.logs == old(site.logs)[save := old(site.LogOf(save)) + r.lines]
            && site.errors == old(site.errors) + ErrorsOf(Utils.ErrorLogPath(site.SaveDir(save), true), exit)
    ensures site.images == old(site.images) && site.remote == old(site.remote)
  {
    // the worker's files land in the save directory, the parameters file is deleted
    var d := site.saves[save] + worker - {ParametersFile};
    var r := AfterRun(d, site.project.registry, k, p);
    site.saves := site.saves[save := r.dir];
    site.project := site.project.(registry := r.registry);
    site.AppendLog(save, r.lines);
    exit := r.exit;
    if exit == RunFailed || exit == Crashed {
      site.LogError(save, if exit == RunFailed then PythonFailed else Uncaught, None);
    }
  }

  /** A dispatch of kind k with parameters p on a readable save, from the flag reset to the last log line. */
  method Run(site: Site, save: string, k: Kind, p: ExecParams, session: string, worker: Dir) returns (exit: Exit)
    requires save in site.saves
    modifies site
    ensures var r := AfterRun(Staged(old(site.saves[save]), session, p) + worker - {ParametersFile}, old(site.project.registry), k, p);
            && exit == r.exit
            && site.saves == old(site.saves)[save := r.dir]
            && site.project == old(site.project).(registry := r.registry)
            && site.logs == old(site.logs)[save := old(site.LogOf(save)) + GpuDispatch.StartEntry(k, p.kept) + r.lines]
            && site.errors == old(site.errors) + ErrorsOf(Utils.ErrorLogPath(site.SaveDir(save), true), r.exit)
    ensures site.images == old(site.images) && site.remote == old(site.remote)
  {
    ghost var log0 := site.LogOf(save);
    ghost var entry := GpuDispatch.StartEntry(k, p.kept);
    Prepare(site, save, k, session, p);
    assert site.LogOf(save) == log0 + entry;
    exit := Conclude(site, save, k, p, worker);
  }

  /**
   * One request to run_gpu_python_code_local.php: `params` is the request's
   * "execution_parameters_to_server", `session` the generated id, `worker` the files
   * the worker leaves in the save directory.
   */
  method Dispatch(site: Site, save: string, params: Payload, session: string, worker: Dir) returns (exit: Exit, status: int)
    modifies site
    ensures status == StatusOf(exit)
    ensures site.project.(registry := old(site.project.registry)) == old(site.project)
    ensures site.images == old(site.images) && site.remote == old(site.remote)
    ensures exit == MissingSave <==> save !in old(site.saves)
    ensures exit == MissingSave ==>
              site.errors == old(site.errors) + [ErrorRecord(Utils.ErrorLogPath(site.projectDir, true), NoSaveDir, None)]
              && site.saves == old(site.saves) && site.logs == old(site.logs) && site.project == old(site.project)
    ensures save in old(site.saves) && !Readable(old(site.saves[save])) ==>
              exit == Crashed && site.saves == old(site.saves) && site.logs == old(site.logs) && site.project == old(site.project)
              && site.errors == old(site.errors) + [ErrorRecord(Utils.ErrorLogPath(site.SaveDir(save), true), Uncaught, None)]
    ensures exit == BadScript <==>
              save in old(site.saves) && Readable(old(site.saves[save])) && GpuDispatch.RequestedKind(params).None?
    ensures exit == BadScript ==>
              site.errors == old(site.errors) + [ErrorRecord(Utils.ErrorLogPath(site.SaveDir(save), true), BadScriptKey, None)]
              && site.saves == old(site.saves) && site.logs == old(site.logs) && site.project == old(site.project)
    ensures save in old(site.saves) && Readable(old(site.saves[save])) && GpuDispatch.RequestedKind(params).Some? ==>
              var k := GpuDispatch.RequestedKind(params).value;
              var p := LocalParams(params, old(site.saves[save])[BoxesFile].images, session);
              var r := AfterRun(Staged(old(site.saves[save]), session, p) + worker - {ParametersFile}, old(site.project.registry), k, p);
              && exit == r.exit
              && site.saves == old(site.saves)[save := r.dir]
              && site.project.registry == r.registry
              && site.logs == old(site.logs)[save := old(site.LogOf(save)) + GpuDispatch.StartEntry(k, p.kept) + r.lines]
              && site.errors == old(site.errors) + ErrorsOf(Utils.ErrorLogPath(site.SaveDir(save), true), r.exit)
  {
    if save !in site.saves {
      site.errors := site.errors + [ErrorRecord(Utils.ErrorLogPath(site.projectDir, true), NoSaveDir, None)];
      return MissingSave, 400;
    }
    var dir := site.saves[save];
    if !Readable(dir) {
      // array_keys of a missing "documents" throws
      site.LogError(save, Uncaught, None);
      return Crashed, 200;
    }
    var p := LocalParams(params, dir[BoxesFile].images, session);
    var kind := GpuDispatch.RequestedKind(params);
    if kind.None? {
      site.LogError(save, BadScriptKey, None);
      return BadScript, 400;
    }
    exit := Run(site, save, kind.value, p, session, worker);
    status := StatusOf(exit);
  }
}
