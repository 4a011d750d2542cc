/**
 * The remote few-shot dispatcher (web/image_processing_view/run_gpu_python_code.php):
 * it rebuilds the execution parameters from the request, derives the key of the
 * model a training run will produce, marks the save's ledger in flight, stages the
 * save's files in the GPU server's temp folder under the session's prefix, runs the
 * worker with a bounded wait, and then either adopts the results and closes the
 * ledger entry or leaves it in flight for the reconciliation sweep.
 *
 * SSH results are inputs: the set of files whose transfer fails, whether the wait
 * timed out, and the files the worker leaves in the temp folder.
 */
module GpuDispatch {
  import opened Wrappers
  import opened PhpValues
  import opened Ledger
  import opened SaveFiles
  import opened Strings
  import Utils
  import opened Site

  // ---------------------------------------------------------------------------
  // Script keys and parameter reconstruction
  // ---------------------------------------------------------------------------

  /** "executingScript": the two remote jobs, compared with ===. */
  function ScriptKind(v: Value): (k: Option<Kind>)
    ensures k == Some(Recognition) <==> v.Str? && v.s == "test_few_shot"
    ensures k == Some(Training) <==> v.Str? && v.s == "few_shot_train"
  {
    if v.Str? && v.s == "test_few_shot" then Some(Recognition)
    else if v.Str? && v.s == "few_shot_train" then Some(Training)
    else None
  }

  /** The job's name in the save's log. */
  function JobName(k: Kind): string
  {
    match k
    case Recognition => "Few-shot recognition"
    case Training => "Few-shot training"
  }

  /** The parameters $log_exec_parameters lists under the start line, in its order. */
  function LoggedParams(k: Kind): seq<Param>
  {
    match k
    case Recognition => [NumberOfShots, ThresholdFewShots, SelectedAlphabet, SelectedModelName, ReadSpaces]
    case Training =>
      [NumberOfShots, ThresholdFewShots, Epochs, SelectedAlphabet, SelectedModelName, NewModelName, ReadSpaces, UserValidation]
  }

  /**
   * The log line of one parameter as the dispatcher reads it back from the parameters
   * it stores (null when it was dropped); the two flags print "yes" or "no" by truthiness.
   */
  function ParameterLine(kept: map<Param, Value>, p: Param): LogLine
  {
    var v := if p in kept then kept[p] else Null;
    if p == ReadSpaces || p == UserValidation then Toggle(p, Truthy(v)) else Setting(p, v)
  }

  /** The log entry that opens a run: the start line, then one line per logged parameter. */
  function StartEntry(k: Kind, kept: map<Param, Value>): seq<LogLine>
  {
    var ps := LoggedParams(k);
    [Starting(JobName(k))] + seq(|ps|, i requires 0 <= i < |ps| => ParameterLine(kept, ps[i]))
  }

  /**
   * The start entry lists each parameter the run reads once, except the selected
   * model's key (its user-given name is listed instead).
   */
  lemma LoggedParamsOfKind(k: Kind)
    ensures forall p :: p in LoggedParams(k) <==> Applies(k, p) && p != SelectedModel
    ensures forall i, j :: 0 <= i < j < |LoggedParams(k)| ==> LoggedParams(k)[i] != LoggedParams(k)[j]
  {
  }

  /**
   * The line a remote run shows for a parameter sent as the request has it: the
   * value when it passed its check, empty when it was dropped, and for a flag
   * "yes" exactly when the request sent the integer 1.
   */
  function ShownAsSent(fe: Payload, p: Param): LogLine
  {
    if p == ReadSpaces || p == UserValidation then Toggle(p, IdenticalTo(Sent(fe, p), 1))
    else if Admissible(p, Sent(fe, p)) then Setting(p, Sent(fe, p))
    else Setting(p, Null)
  }

  lemma ParameterLineAsSent(k: Kind, fe: Payload, p: Param)
    requires Applies(k, p)
    ensures ParameterLine(Rebuilt(k, fe), p) == ShownAsSent(fe, p)
  {
    RebuiltAt(k, fe, p);
    var kept := Rebuilt(k, fe);
    var v := Sent(fe, p);
    if p == ReadSpaces || p == UserValidation {
      assert Truthy(kept[p]) == IdenticalTo(v, 1);
    } else if Admissible(p, v) {
      assert kept[p] == v;
    } else {
      assert p !in kept;
    }
  }

  /** Every parameter is one of the nine. */
  lemma InAllParams(p: Param)
    ensures p in AllParams
  {
    match p
    case NumberOfShots =>
    case ThresholdFewShots =>
    case SelectedAlphabet =>
    case SelectedModel =>
    case SelectedModelName =>
    case ReadSpaces =>
    case UserValidation =>
    case NewModelName =>
    case Epochs =>
  }

  /** A parameter the run reads is rebuilt exactly when it passes its check, with its stored value. */
  lemma RebuiltAt(k: Kind, fe: Payload, p: Param)
    requires Applies(k, p)
    ensures p in Rebuilt(k, fe) <==> Admissible(p, Sent(fe, p))
    ensures p in Rebuilt(k, fe) ==> Rebuilt(k, fe)[p] == Stored(p, Sent(fe, p))
  {
    InAllParams(p);
  }

  /** The start entry's first line is the job's start line, and line i + 1 is the i-th logged parameter's. */
  lemma StartEntryAt(k: Kind, kept: map<Param, Value>, i: int)
    requires 0 <= i < |LoggedParams(k)|
    ensures |StartEntry(k, kept)| == 1 + |LoggedParams(k)| && StartEntry(k, kept)[0] == Starting(JobName(k))
    ensures StartEntry(k, kept)[i + 1] == ParameterLine(kept, LoggedParams(k)[i])
  {
  }

  /** The start entry of a remote run shows every logged parameter as the request sent it, or empty when dropped. */
  lemma StartEntryShowsKept(k: Kind, fe: Payload)
    ensures var e := StartEntry(k, Rebuilt(k, fe));
            && |e| == 1 + |LoggedParams(k)| && e[0] == Starting(JobName(k))
            && forall i :: 0 <= i < |LoggedParams(k)| ==> e[i + 1] == ShownAsSent(fe, LoggedParams(k)[i])
  {
    LoggedParamsOfKind(k);
    StartEntryAt(k, Rebuilt(k, fe), 0);
    forall i | 0 <= i < |LoggedParams(k)|
      ensures StartEntry(k, Rebuilt(k, fe))[i + 1] == ShownAsSent(fe, LoggedParams(k)[i])
    {
      StartEntryAt(k, Rebuilt(k, fe), i);
      ParameterLineAsSent(k, fe, LoggedParams(k)[i]);
    }
  }

  const Alphabets: seq<string> := ["borg", "copiale", "vatican", "runic", "ramanacoil"]
  const BaseModels: seq<string> := ["omniglot", "cipherglot-mix", "cipherglot-separated"]

  /** 1 when the value is the integer 1 (=== 1), 0 otherwise. */
  function OneOrZero(v: Value): (r: Value)
    ensures r == Int(1) || r == Int(0)
    ensures r == Int(1) <==> IdenticalTo(v, 1)
  {
    if IdenticalTo(v, 1) then Int(1) else Int(0)
  }

  /** A kept string parameter, or None when it was dropped. */
  function StringParam(kept: map<Param, Value>, p: Param): (r: Option<string>)
    ensures r.Some? <==> p in kept && kept[p].Str?
    ensures r.Some? ==> r.value == kept[p].s
  {
    if p in kept && kept[p].Str? then Some(kept[p].s) else None
  }

  /** The request value of a parameter (null when absent). */
  function Sent(fe: Payload, p: Param): Value
  {
    Get(fe, Key(p))
  }

  /** The check a sent value must pass to be kept as it is. */
  predicate Admissible(p: Param, v: Value)
  {
    match p
    case NumberOfShots => IntIn(v, 1, 5)
    case ThresholdFewShots => NumericIn(v, 0.01, 1.0)
    case SelectedAlphabet => v.Str? && v.s in Alphabets
    case SelectedModel => v.Str?
    case SelectedModelName => v.Str?
    case NewModelName => v.Str?
    case Epochs => IntIn(v, 1, 20)
    case ReadSpaces => true
    case UserValidation => true
  }

  /** A parameter the run applies to is kept, unchanged, exactly when its value passes the check. */
  predicate KeptAsSent(kept: map<Param, Value>, p: Param, fe: Payload, applies: bool)
  {
    (p in kept <==> applies && Admissible(p, Sent(fe, p)))
    && (p in kept ==> kept[p] == Sent(fe, p))
  }

  const AllParams: set<Param> := {NumberOfShots, ThresholdFewShots, SelectedAlphabet, SelectedModel,
                                  SelectedModelName, ReadSpaces, UserValidation, NewModelName, Epochs}

  /** The parameters a run of kind k reads: training adds the validation flag, the new name and the epochs. */
  predicate Applies(k: Kind, p: Param)
  {
    k == Training || (p != UserValidation && p != NewModelName && p != Epochs)
  }

  /** The value stored for a parameter that passed its check: the two flags become 0 or 1. */
  function Stored(p: Param, v: Value): Value
  {
    if p == ReadSpaces || p == UserValidation then OneOrZero(v) else v
  }

  /** The reconstructed parameters, stated declaratively: one entry per applicable parameter that passes. */
  function Rebuilt(k: Kind, fe: Payload): map<Param, Value>
  {
    map p | p in AllParams && Applies(k, p) && Admissible(p, Sent(fe, p)) :: Stored(p, Sent(fe, p))
  }

  /** The checks fix the map: whatever satisfies them for every parameter is Rebuilt(k, fe). */
  lemma ChecksDetermineParameters(kept: map<Param, Value>, k: Kind, fe: Payload)
    requires KeptAsSent(kept, NumberOfShots, fe, true)
    requires KeptAsSent(kept, ThresholdFewShots, fe, true)
    requires KeptAsSent(kept, SelectedAlphabet, fe, true)
    requires KeptAsSent(kept, SelectedModel, fe, true)
    requires KeptAsSent(kept, SelectedModelName, fe, true)
    requires KeptAsSent(kept, NewModelName, fe, k == Training)
    requires KeptAsSent(kept, Epochs, fe, k == Training)
    requires ReadSpaces in kept && kept[ReadSpaces] == OneOrZero(Sent(fe, ReadSpaces))
    requires UserValidation in kept <==> k == Training
    requires k == Training ==> kept[UserValidation] == OneOrZero(Sent(fe, UserValidation))
    ensures kept == Rebuilt(k, fe)
  {
    var r := Rebuilt(k, fe);
    forall p ensures (p in kept <==> p in r) && (p in kept ==> kept[p] == r[p]) {
      match p
      case ReadSpaces =>
      case UserValidation =>
      case _ => RebuiltAgreesAt(kept, k, fe, p);
    }
  }

  lemma RebuiltAgreesAt(kept: map<Param, Value>, k: Kind, fe: Payload, p: Param)
    requires p != ReadSpaces && p != UserValidation
    requires KeptAsSent(kept, p, fe, Applies(k, p))
    ensures p in kept <==> p in Rebuilt(k, fe)
    ensures p in kept ==> kept[p] == Rebuilt(k, fe)[p]
  {
    assert p in AllParams by {
      match p
      case NumberOfShots =>
      case ThresholdFewShots =>
      case SelectedAlphabet =>
      case SelectedModel =>
      case SelectedModelName =>
      case NewModelName =>
      case Epochs =>
    }
  }

  /**
   * The execution parameters rebuilt from the request: every value that fails its
   * check is dropped (the key is absent), never rejected; the two flags always end
   * as 0 or 1, being 1 exactly when the request sent the integer 1.
   */
  method ReconstructParameters(k: Kind, fe: Payload) returns (kept: map<Param, Value>)
    ensures KeptAsSent(kept, NumberOfShots, fe, true)
    ensures KeptAsSent(kept, ThresholdFewShots, fe, true)
    ensures KeptAsSent(kept, SelectedAlphabet, fe, true)
    ensures KeptAsSent(kept, SelectedModel, fe, true)
    ensures KeptAsSent(kept, SelectedModelName, fe, true)
    ensures KeptAsSent(kept, NewModelName, fe, k == Training)
    ensures KeptAsSent(kept, Epochs, fe, k == Training)
    ensures ReadSpaces in kept && kept[ReadSpaces] == OneOrZero(Sent(fe, ReadSpaces))
    ensures UserValidation in kept <==> k == Training
    ensures k == Training ==> kept[UserValidation] == OneOrZero(Sent(fe, UserValidation))
    ensures kept == Rebuilt(k, fe)
  {
    kept := map[];
    if k == Training {
      kept := kept[UserValidation := OneOrZero(Sent(fe, UserValidation))];
    }
    kept := KeepCommonParameters(kept, fe);
    if k == Training {
      kept := KeepTrainingParameters(kept, fe);
    }
    kept := kept[ReadSpaces := OneOrZero(Sent(fe, ReadSpaces))];
    ChecksDetermineParameters(kept, k, fe);
  }

  /** The checks both kinds of run apply: shots, threshold, alphabet, model and its name. */
  method KeepCommonParameters(kept: map<Param, Value>, fe: Payload) returns (r: map<Param, Value>)
    requires forall p :: p in kept ==> p == UserValidation
    ensures KeptAsSent(r, NumberOfShots, fe, true)
    ensures KeptAsSent(r, ThresholdFewShots, fe, true)
    ensures KeptAsSent(r, SelectedAlphabet, fe, true)
    ensures KeptAsSent(r, SelectedModel, fe, true)
    ensures KeptAsSent(r, SelectedModelName, fe, true)
    ensures forall p :: p in r ==> p in kept || p in {NumberOfShots, ThresholdFewShots, SelectedAlphabet, SelectedModel, SelectedModelName}
    ensures UserValidation in r <==> UserValidation in kept
    ensures UserValidation in kept ==> r[UserValidation] == kept[UserValidation]
  {
    r := KeepIfAdmissible(kept, NumberOfShots, fe);
    r := KeepIfAdmissible(r, ThresholdFewShots, fe);
    r := KeepIfAdmissible(r, SelectedAlphabet, fe);
    r := KeepIfAdmissible(r, SelectedModel, fe);
    r := KeepIfAdmissible(r, SelectedModelName, fe);
  }

  /** The checks only a training applies: the new model's name and the epochs. */
  method KeepTrainingParameters(kept: map<Param, Value>, fe: Payload) returns (r: map<Param, Value>)
    requires NewModelName !in kept && Epochs !in kept
    ensures KeptAsSent(r, NewModelName, fe, true)
    ensures KeptAsSent(r, Epochs, fe, true)
    ensures forall q :: q != NewModelName && q != Epochs ==> (q in r <==> q in kept) && (q in kept ==> r[q] == kept[q])
  {
    r := KeepIfAdmissible(kept, NewModelName, fe);
    r := KeepIfAdmissible(r, Epochs, fe);
  }

  /** One `if (check) { $execution_parameters[key] = sent value; }` step. */
  method KeepIfAdmissible(kept: map<Param, Value>, p: Param, fe: Payload) returns (r: map<Param, Value>)
    ensures p in r <==> p in kept || Admissible(p, Sent(fe, p))
    ensures Admissible(p, Sent(fe, p)) ==> r[p] == Sent(fe, p)
    ensures !Admissible(p, Sent(fe, p)) && p in kept ==> r[p] == kept[p]
    ensures forall q :: q != p ==> (q in r <==> q in kept) && (q in kept ==> r[q] == kept[q])
  {
    r := kept;
    if Admissible(p, Sent(fe, p)) {
      r := r[p := Sent(fe, p)];
    }
  }

  // ---------------------------------------------------------------------------
  // The key of the model a run produces
  // ---------------------------------------------------------------------------

  const ResizeFlag: string := "RESIZE_FLAG"

  /** The base models whose resizing logic differs from omniglot's. */
  predicate ResizingBase(model: string)
  {
    model == "cipherglot-mix" || model == "cipherglot-separated"
  }

  /**
   * "new_model_key": a run on a base model produces a fresh model named after the
   * alphabet and the session, marked with "RESIZE_FLAG_" when the base resizes; a run
   * on a fine-tuned model keeps (and overwrites) that model's key. A dropped alphabet
   * concatenates as the empty string; a dropped model gives no key (null).
   */
  function NewModelKey(model: Option<string>, alphabet: Option<string>, session: string): (key: Option<string>)
    ensures model.None? ==> key.None?
    ensures model.Some? && model.value !in BaseModels ==> key == model
    ensures model.Some? && model.value in BaseModels ==>
              key.Some? && |key.value| >= |session| && key.value[|key.value| - |session|..] == session
              && IsPrefix(alphabet.GetOr("") + "_", key.value)
  {
    match model
    case None => None
    case Some(m) =>
      if m in BaseModels then
        Some(alphabet.GetOr("") + "_" + (if ResizingBase(m) then ResizeFlag + "_" else "") + session)
      else Some(m)
  }

  /** Two runs on the same base model and alphabet produce the same key only in the same session. */
  lemma NewModelKeyFresh(model: string, alphabet: Option<string>, s1: string, s2: string)
    requires model in BaseModels
    ensures NewModelKey(Some(model), alphabet, s1) == NewModelKey(Some(model), alphabet, s2) <==> s1 == s2
  {
    var head := alphabet.GetOr("") + "_" + (if ResizingBase(model) then ResizeFlag + "_" else "");
    if NewModelKey(Some(model), alphabet, s1) == NewModelKey(Some(model), alphabet, s2) {
      assert (head + s1)[|head|..] == s1;
      assert (head + s2)[|head|..] == s2;
    }
  }

  /** No vocabulary word has an upper-case 'R', so none can hold the resize flag. */
  predicate LowerCaseWord(w: string)
  {
    forall i :: 0 <= i < |w| ==> w[i] != 'R'
  }

  /** How the training worker chooses its resizing: by the flag in the new model's key. */
  predicate TrainResizes(newModel: string)
  {
    Contains(newModel, ResizeFlag)
  }

  /** How the recognition worker chooses its resizing for the model it runs. */
  predicate TestResizes(model: string)
  {
    Contains(model, ResizeFlag) || ResizingBase(model)
  }

  lemma VocabularyIsLowerCase(w: string)
    requires w in Alphabets || w in BaseModels
    ensures LowerCaseWord(w)
  {
  }

  lemma LowerCaseHasNoFlag(w: string)
    requires LowerCaseWord(w)
    ensures !Contains(w, ResizeFlag)
  {
    ContainsSkip(w, "", ResizeFlag);
    NotContainsEmpty(ResizeFlag);
    assert w + "" == w;
  }

  lemma FlaggedKey(a: string, session: string)
    ensures TrainResizes(a + "_" + (ResizeFlag + "_") + session)
  {
    assert a + "_" + (ResizeFlag + "_") + session == (a + "_") + ResizeFlag + ("_" + session);
    ContainsInfix(a + "_", ResizeFlag, "_" + session);
  }

  lemma UnflaggedKey(a: string, session: string)
    requires LowerCaseWord(a) && !Contains(session, ResizeFlag)
    ensures !TestResizes(a + "_" + session)
  {
    var key := a + "_" + session;
    assert !Contains(key, ResizeFlag) by {
      assert LowerCaseWord(a + "_");
      assert key == (a + "_") + session;
      ContainsSkip(a + "_", session, ResizeFlag);
    }
    assert key[|a|] == '_';
    NoBaseHasUnderscore(key, |a|);
  }

  /** A name with an underscore is neither base model that resizes. */
  lemma NoBaseHasUnderscore(key: string, j: int)
    requires 0 <= j < |key| && key[j] == '_'
    ensures !ResizingBase(key)
  {
    assert Avoids("cipherglot-mix", '_') && Avoids("cipherglot-separated", '_');
  }

  /**
   * The reason for the flag: a model fine-tuned from a base model is trained, and later
   * recognised with, the resizing logic of that base model, provided the session id
   * does not itself spell the flag.
   */
  lemma ResizingFollowsBase(model: string, alphabet: Option<string>, session: string)
    requires model in BaseModels
    requires alphabet.None? || alphabet.value in Alphabets
    requires !Contains(session, ResizeFlag)
    ensures var key := NewModelKey(Some(model), alphabet, session).value;
            TrainResizes(key) == TestResizes(model) && TestResizes(key) == TestResizes(model)
  {
    var a := alphabet.GetOr("");
    if alphabet.Some? {
      VocabularyIsLowerCase(alphabet.value);
    }
    VocabularyIsLowerCase(model);
    LowerCaseHasNoFlag(model);
    assert TestResizes(model) == ResizingBase(model);
    var key := NewModelKey(Some(model), alphabet, session).value;
    if ResizingBase(model) {
      assert key == a + "_" + (ResizeFlag + "_") + session;
      FlaggedKey(a, session);
    } else {
      assert key == a + "_" + "" + session;
      assert a + "_" + "" == a + "_";
      UnflaggedKey(a, session);
    }
  }

  // ---------------------------------------------------------------------------
  // Staging: the files sent to the GPU server
  // ---------------------------------------------------------------------------

  /** The files sent: the images, then the fixed documents, then the generated transcription if any. */
  function SendList(images: seq<string>, hasGenerated: bool): (files: seq<string>)
    ensures |files| >= |images| && files[..|images|] == images
    ensures forall f :: f in [BoxesFile, TranscriptionFile, LookupFile, ParametersFile, FlagFile] ==> f in files
    ensures GeneratedFile in files <==> hasGenerated || GeneratedFile in images
  {
    images + [BoxesFile, TranscriptionFile, LookupFile, ParametersFile, FlagFile]
      + (if hasGenerated then [GeneratedFile] else [])
  }

  /** ssh2_scp_send succeeds when the local file exists and the transport does not fail. */
  predicate Sendable(dir: Dir, f: string, failures: set<string>)
  {
    f in dir && f !in failures
  }

  /** What the staging loop leaves in the temp folder, later files overwriting earlier ones. */
  function Pushed(dir: Dir, session: string, files: seq<string>, failures: set<string>): Dir
    decreases |files|
  {
    if files == [] then map[]
    else
      var last := files[|files| - 1];
      Pushed(dir, session, files[..|files| - 1], failures)
        + (if Sendable(dir, last, failures) then map[StagedName(session, last) := dir[last]] else map[])
  }

  lemma StagedNameInjective(session: string, f: string, g: string)
    ensures StagedName(session, f) == StagedName(session, g) <==> f == g
  {
    if StagedName(session, f) == StagedName(session, g) {
      StagedNameSplits(session, f);
      StagedNameSplits(session, g);
    }
  }

  /**
   * Every file the loop stages lands at "<sessionID>-<name>", and a name is staged
   * exactly when it is on the list and its transfer succeeds, with the local content.
   */
  lemma {:induction false} PushedExactly(dir: Dir, session: string, files: seq<string>, failures: set<string>)
    ensures forall n :: n in Pushed(dir, session, files, failures) ==>
              |n| > |session| && n[..|session| + 1] == session + "-"
    ensures forall f :: StagedName(session, f) in Pushed(dir, session, files, failures) <==>
              f in files && Sendable(dir, f, failures)
    ensures forall f :: f in files && Sendable(dir, f, failures) ==>
              Pushed(dir, session, files, failures)[StagedName(session, f)] == dir[f]
    decreases |files|
  {
    if files != [] {
      var init, last := files[..|files| - 1], files[|files| - 1];
      assert files == init + [last];
      PushedExactly(dir, session, init, failures);
      forall f ensures StagedName(session, f) == StagedName(session, last) <==> f == last {
        StagedNameInjective(session, f, last);
      }
    }
  }

  // ---------------------------------------------------------------------------
  // The remote command
  // ---------------------------------------------------------------------------

  /** The paths and values the remote command line passes to the GPU wrapper. */
  datatype Command = Command(
    code: string, lookupTable: string, parameters: string, successFlag: string, boxes: string,
    transcription: string, generated: string, sessionId: string, workingDir: string, suffix: string)

  function TempDir(gpuFolder: string): string
  {
    gpuFolder + "/temp"
  }

  function ScriptFile(k: Kind): string
  {
    match k
    case Recognition => "test_few_shot.py"
    case Training => "train_few_shot.py"
  }

  function BuildCommand(gpuFolder: string, session: string, k: Kind): (c: Command)
    ensures c.sessionId == session && c.suffix == Suffix && c.workingDir == TempDir(gpuFolder)
  {
    var t := TempDir(gpuFolder) + "/";
    Command(ScriptFile(k), t + StagedName(session, LookupFile), t + StagedName(session, ParametersFile),
            t + StagedName(session, FlagFile), t + StagedName(session, BoxesFile),
            t + StagedName(session, TranscriptionFile), t + StagedName(session, GeneratedFile),
            session, TempDir(gpuFolder), Suffix)
  }

  function CommandPaths(c: Command): seq<string>
  {
    [c.lookupTable, c.parameters, c.successFlag, c.boxes, c.transcription, c.generated]
  }

  /**
   * Every path in the command names a file of the send list under the session's
   * prefix in the temp folder; only the generated transcription may be absent from
   * the list, when the save has none.
   */
  lemma CommandNamesStagedFiles(gpuFolder: string, session: string, k: Kind, images: seq<string>, hasGenerated: bool)
    ensures forall p :: p in CommandPaths(BuildCommand(gpuFolder, session, k)) ==>
              exists f :: p == TempDir(gpuFolder) + "/" + StagedName(session, f)
                          && (f in SendList(images, hasGenerated) || (f == GeneratedFile && !hasGenerated))
  {
    var c := BuildCommand(gpuFolder, session, k);
    var t := TempDir(gpuFolder) + "/";
    var list := SendList(images, hasGenerated);
    assert c.lookupTable == t + StagedName(session, LookupFile) && LookupFile in list;
    assert c.parameters == t + StagedName(session, ParametersFile) && ParametersFile in list;
    assert c.successFlag == t + StagedName(session, FlagFile) && FlagFile in list;
    assert c.boxes == t + StagedName(session, BoxesFile) && BoxesFile in list;
    assert c.transcription == t + StagedName(session, TranscriptionFile) && TranscriptionFile in list;
    assert c.generated == t + StagedName(session, GeneratedFile);
  }

  // ---------------------------------------------------------------------------
  // The save directory through the dispatch
  // ---------------------------------------------------------------------------

  /** The two documents the dispatcher reads before it writes anything. */
  predicate Dispatchable(dir: Dir)
  {
    BoxesFile in dir && dir[BoxesFile].Boxes? && LookupFile in dir && dir[LookupFile].Table?
  }

  function LedgerOf(dir: Dir): Option<Transmission>
  {
    if LookupFile in dir && dir[LookupFile].Table? then dir[LookupFile].table.transmission else None
  }

  /** The parameters a dispatch of kind k rebuilds and stores (ReconstructParameters' result is kept). */
  function ParamsFor(kept: map<Param, Value>, images: seq<string>, session: string): ExecParams
  {
    ExecParams(kept, images,
      NewModelKey(StringParam(kept, SelectedModel), StringParam(kept, SelectedAlphabet), session))
  }

  /** The lookup table with the entry of kind k marked in flight for the session. */
  function MarkedTable(t: LookupTable, k: Kind, session: string, p: ExecParams): (r: LookupTable)
    ensures r.transmission.Some? && Awaiting(r.transmission.value.Get(k))
    ensures r.transmission.value.Get(k).sessionId == session
    ensures r == t.(transmission := r.transmission)
  {
    t.(transmission := Some(MarkInFlight(LedgerOrDefault(t.transmission), k, session,
                                         p.newModelKey, StringParam(p.kept, NewModelName))))
  }

  /** The save after the mark, the success flag reset to 0, and the parameters file written. */
  function PreparedDir(dir: Dir, k: Kind, session: string, p: ExecParams): (r: Dir)
    requires Dispatchable(dir)
    ensures r.Keys == dir.Keys + {FlagFile, ParametersFile}
    ensures r[LookupFile] == Table(MarkedTable(dir[LookupFile].table, k, session, p))
    ensures r[FlagFile] == Flag(Some(0)) && r[ParametersFile] == Parameters(p)
    ensures forall f :: f in dir && f !in {LookupFile, FlagFile, ParametersFile} ==> r[f] == dir[f]
  {
    dir[LookupFile := Table(MarkedTable(dir[LookupFile].table, k, session, p))]
       [FlagFile := Flag(Some(0))][ParametersFile := Parameters(p)]
  }

  /** The worker's outputs for the three result documents. */
  function BoxesOutput(session: string): string { OutputName(session, "bounding_boxes") }
  function TranscriptionOutput(session: string): string { OutputName(session, "transcription") }
  function GeneratedOutput(session: string): string { OutputName(session, "generated_transcription") }

  /**
   * The receives of the result files, each straight over its canonical file, chained
   * with && so that they stop at the first output the GPU server does not have.
   * Whatever was received before that stays in place.
   */
  function PullResults(dir: Dir, remote: Dir, session: string): (r: Dir)
    ensures BoxesOutput(session) !in remote ==> r == dir
    ensures BoxesOutput(session) in remote ==> BoxesFile in r && r[BoxesFile] == remote[BoxesOutput(session)]
    ensures BoxesOutput(session) in remote && TranscriptionOutput(session) in remote ==>
              TranscriptionFile in r && r[TranscriptionFile] == remote[TranscriptionOutput(session)]
    ensures BoxesOutput(session) in remote && TranscriptionOutput(session) in remote && GeneratedOutput(session) in remote ==>
              GeneratedFile in r && r[GeneratedFile] == remote[GeneratedOutput(session)]
    ensures forall f :: f in dir && f != BoxesFile && f != TranscriptionFile && f != GeneratedFile ==> f in r && r[f] == dir[f]
  {
    var b, t, g := BoxesOutput(session), TranscriptionOutput(session), GeneratedOutput(session);
    if b !in remote then dir
    else if t !in remote then dir[BoxesFile := remote[b]]
    else if g !in remote then dir[BoxesFile := remote[b]][TranscriptionFile := remote[t]]
    else dir[BoxesFile := remote[b]][TranscriptionFile := remote[t]][GeneratedFile := remote[g]]
  }

  /** The session's output of the lookup table, received into tmp_lookup_table.json. */
  function LedgerOutput(session: string): string
  {
    OutputName(session, "lookup_table")
  }

  /** Every output the dispatcher needs is on the GPU server. */
  predicate AllOutputs(remote: Dir, session: string)
  {
    BoxesOutput(session) in remote && TranscriptionOutput(session) in remote
    && GeneratedOutput(session) in remote && LedgerOutput(session) in remote
  }

  /** The ledger and CER of a received lookup table; a malformed file reads as nulls. */
  function RemoteLedger(f: File): Option<Transmission>
  {
    if f.Table? then f.table.transmission else None
  }

  function RemoteCer(f: File): Option<string>
  {
    if f.Table? then f.table.cer else None
  }

  /** A training run whose user asked for validation (user_validation_flag === 1). */
  predicate Validating(k: Kind, p: ExecParams)
  {
    k == Training && UserValidation in p.kept && IdenticalTo(p.kept[UserValidation], 1)
  }

  /** The lines logged before "finished execution": the CER of a validated training run. */
  function CerLines(k: Kind, p: ExecParams, received: File): (lines: seq<LogLine>)
    ensures !Validating(k, p) ==> lines == []
    ensures Validating(k, p) ==> |lines| == 1
    ensures Validating(k, p) && RemoteCer(received).Some? ==> lines == [CerReport(RemoteCer(received).value)]
  {
    if Validating(k, p) then
      (if RemoteCer(received).Some? then [CerReport(RemoteCer(received).value)] else [CerMissing])
    else []
  }

  /** The remote ledger replaces the local one, and is cleared when it reports the kind finished. */
  function Adopted(received: File, k: Kind): (t: Option<Transmission>)
    ensures t.None? <==> RemoteLedger(received).None?
    ensures t.Some? && RemoteLedger(received).value.Get(k).finished == 1 ==> Idle(t.value.Get(k))
    ensures t.Some? ==> t.value.Get(Other(k)) == RemoteLedger(received).value.Get(Other(k))
  {
    match RemoteLedger(received)
    case None => None
    case Some(t) => Some(ClearIfFinished(t, k))
  }

  /** A training run that the adopted ledger reports finished registers its model. */
  predicate Registers(received: File, k: Kind)
  {
    k == Training && RemoteLedger(received).Some? && RemoteLedger(received).value.training.finished == 1
  }

  /** The outcome of one dispatch. */
  datatype Exit =
    | MissingSave      // 400
    | BadScript      // 400
    | Crashed        // an uncaught error, logged by the catch-all (200)
    | StagingFailed  // 502 for a failed transfer, then the next ssh2 call throws on the closed connection
    | WaitTimedOut       // 504
    | NoFlag         // 500
    | RemoteFailed   // 502
    | OutputsMissing // 500
    | Completed      // 200

  /**
   * How the dispatch ends once the worker has run, decided by what the GPU server
   * holds: the wait, the success flag, the outputs, and the two decodes that can
   * throw (the CER lookup on a malformed ledger, and the registry of a project table
   * that was never migrated).
   */
  function CollectExit(remote: Dir, session: string, k: Kind, p: ExecParams, timedOut: bool, hasRegistry: bool): Exit
  {
    var flag := StagedName(session, FlagFile);
    if timedOut then WaitTimedOut
    else if flag !in remote then NoFlag
    else if !remote[flag].Flag? then Crashed
    else if remote[flag].success != Some(1) then RemoteFailed
    else if !AllOutputs(remote, session) then OutputsMissing
    else if Validating(k, p) && !remote[LedgerOutput(session)].Table? then Crashed
    else if Registers(remote[LedgerOutput(session)], k) && !hasRegistry then Crashed
    else Completed
  }

  function StatusOf(exit: Exit): int
  {
    match exit
    case MissingSave => 400
    case BadScript => 400
    case Crashed => 200
    case StagingFailed => 502
    case WaitTimedOut => 504
    case NoFlag => 500
    case RemoteFailed => 502
    case OutputsMissing => 500
    case Completed => 200
  }

  /** The error record the dispatch leaves after "Python output", if any. */
  function CollectedErrors(path: string, session: string, exit: Exit): seq<ErrorRecord>
  {
    match exit
    case WaitTimedOut => [ErrorRecord(path, Incident.TimedOut, None)]
    case NoFlag => [ErrorRecord(path, Incident.ResultsMissing, None)]
    case Crashed => [ErrorRecord(path, Uncaught, None)]
    case RemoteFailed => [ErrorRecord(path, PythonFailed, Some(session))]
    case OutputsMissing => [ErrorRecord(path, Incident.ResultsMissing, None)]
    case _ => []
  }

  /** The flag received and decoded: a malformed file cannot be searched for its key. */
  predicate FlagDecodes(remote: Dir, session: string)
  {
    StagedName(session, FlagFile) in remote && remote[StagedName(session, FlagFile)].Flag?
  }

  // ---------------------------------------------------------------------------
  // The dispatch, phase by phase
  // ---------------------------------------------------------------------------

  /** The position of the first transfer that fails, or the list's length when all succeed. */
  function FirstFailure(dir: Dir, files: seq<string>, failures: set<string>): (n: nat)
    ensures n <= |files|
    ensures forall j :: 0 <= j < n ==> Sendable(dir, files[j], failures)
    ensures n < |files| ==> !Sendable(dir, files[n], failures)
    decreases |files|
  {
    if files == [] || !Sendable(dir, files[0], failures) then 0
    else 1 + FirstFailure(dir, files[1..], failures)
  }

  /**
   * Marks the ledger, logs the start, resets the success flag and writes the
   * parameters file, all before the GPU server is contacted.
   */
  method Prepare(site: Site, save: string, k: Kind, session: string, p: ExecParams)
    requires save in site.saves && Dispatchable(site.saves[save])
    modifies site
    ensures site.saves == old(site.saves)[save := PreparedDir(old(site.saves[save]), k, session, p)]
    ensures site.logs == old(site.logs)[save := old(site.LogOf(save)) + StartEntry(k, p.kept)]
    ensures site.project == old(site.project) && site.images == old(site.images)
    ensures site.errors == old(site.errors) && site.remote == old(site.remote)
  {
    var dir := site.saves[save];
    var entry := StartEntry(k, p.kept);
    dir := dir[LookupFile := Table(MarkedTable(dir[LookupFile].table, k, session, p))];
    site.saves := site.saves[save := dir];
    site.AppendLog(save, entry);
    dir := dir[FlagFile := Flag(Some(0))];
    dir := dir[ParametersFile := Parameters(p)];
    site.saves := site.saves[save := dir];
  }

  /**
   * The send loop. A failed transfer logs a 502 and closes the connection, so the
   * loop goes no further: the staged files are those before the first failure.
   */
  method Stage(site: Site, save: string, session: string, files: seq<string>, failures: set<string>) returns (ok: bool)
    requires save in site.saves
    modifies site
    ensures ok <==> FirstFailure(old(site.saves[save]), files, failures) == |files|
    ensures site.remote == old(site.remote) + Staged(old(site.saves[save]), session, files, failures)
    ensures site.errors ==
              old(site.errors) + if ok then [] else [ErrorRecord(Utils.ErrorLogPath(site.SaveDir(save), true), SendFailed, None)]
    ensures site.saves == old(site.saves) && site.logs == old(site.logs)
    ensures site.project == old(site.project) && site.images == old(site.images)
  {
    var dir := site.saves[save];
    var i := 0;
    while i < |files| && Sendable(dir, files[i], failures)
      invariant i <= FirstFailure(dir, files, failures)
      invariant site.remote == old(site.remote) + Pushed(dir, session, files[..i], failures)
      invariant site.saves == old(site.saves) && site.logs == old(site.logs) && site.errors == old(site.errors)
      invariant site.project == old(site.project) && site.images == old(site.images)
    {
      PushedStep(dir, session, files, i, failures);
      site.remote := site.remote[StagedName(session, files[i]) := dir[files[i]]];
      i := i + 1;
    }
    ok := i == |files|;
    if !ok {
      site.LogError(save, SendFailed, None);
    }
  }

  /** What the send loop leaves in the temp folder: the files before the first failure. */
  function Staged(dir: Dir, session: string, files: seq<string>, failures: set<string>): Dir
  {
    Pushed(dir, session, files[..FirstFailure(dir, files, failures)], failures)
  }

  lemma PushedStep(dir: Dir, session: string, files: seq<string>, i: nat, failures: set<string>)
    requires i < |files| && Sendable(dir, files[i], failures)
    ensures forall m: Dir :: m + Pushed(dir, session, files[..i + 1], failures)
                           == (m + Pushed(dir, session, files[..i], failures))[StagedName(session, files[i]) := dir[files[i]]]
  {
    assert files[..i + 1][..i] == files[..i];
  }

  /** Everything after the worker's run: the wait, the flag, the receives, the ledger and the registry. */
  method Collect(site: Site, save: string, k: Kind, session: string, p: ExecParams, timedOut: bool) returns (exit: Exit)
    requires save in site.saves && LookupFile in site.saves[save] && site.saves[save][LookupFile].Table?
    modifies site
    ensures exit == CollectExit(site.remote, session, k, p, timedOut, old(site.project.registry).Some?)
    ensures site.remote == old(site.remote) && site.images == old(site.images)
    ensures site.errors == old(site.errors) + CollectedErrors(Utils.ErrorLogPath(site.SaveDir(save), true), session, exit)
    // the directory: what each way out leaves behind
    ensures exit == WaitTimedOut ==> site.saves == old(site.saves)
    ensures exit == NoFlag ==> site.saves == old(site.saves)[save := old(site.saves[save]) - {ParametersFile}]
    ensures exit == RemoteFailed || (exit == Crashed && !FlagDecodes(site.remote, session)) ==>
              site.saves == old(site.saves)[save := old(site.saves[save]) - {ParametersFile, FlagFile}]
    ensures exit == OutputsMissing || (exit == Crashed && FlagDecodes(site.remote, session)) ==>
              site.saves == old(site.saves)[save := PullResults(old(site.saves[save]) - {ParametersFile, FlagFile},
                                                                site.remote, session)]
    ensures exit == Completed ==>
              site.saves == old(site.saves)[save :=
                PullResults(old(site.saves[save]) - {ParametersFile, FlagFile}, site.remote, session)
                  [LookupFile := Table(old(site.saves[save][LookupFile].table).(
                                   transmission := Adopted(site.remote[LedgerOutput(session)], k)))]]
    // the log
    ensures exit == RemoteFailed ==> site.logs == old(site.logs)[save := old(site.LogOf(save)) + [Failed(JobName(k))]]
    ensures exit == Completed ==>
              site.logs == old(site.logs)[save := old(site.LogOf(save))
                                          + (CerLines(k, p, site.remote[LedgerOutput(session)]) + [Finished(JobName(k))])]
    ensures exit != RemoteFailed && exit != Completed ==> site.logs == old(site.logs)
    // the registry
    ensures exit == Completed && Registers(site.remote[LedgerOutput(session)], k) ==>
              site.project == old(site.project).(registry := Some(RegisterIfAbsent(
                old(site.project.registry).value, ArrayKey(p.newModelKey), StringParam(p.kept, NewModelName))))
    ensures !(exit == Completed && Registers(site.remote[LedgerOutput(session)], k)) ==> site.project == old(site.project)
    // the same, as the rest of the protocol sees it
    ensures save in site.saves && LookupFile in site.saves[save]
    ensures exit != Completed ==> site.saves[save][LookupFile] == old(site.saves[save][LookupFile])
    ensures exit == Completed ==>
              site.saves[save][LookupFile] == Table(old(site.saves[save][LookupFile].table).(
                                                transmission := Adopted(site.remote[LedgerOutput(session)], k)))
              && BoxesFile in site.saves[save] && TranscriptionFile in site.saves[save] && GeneratedFile in site.saves[save]
              && site.saves[save][BoxesFile] == site.remote[BoxesOutput(session)]
              && site.saves[save][TranscriptionFile] == site.remote[TranscriptionOutput(session)]
              && site.saves[save][GeneratedFile] == site.remote[GeneratedOutput(session)]
              && ParametersFile !in site.saves[save] && FlagFile !in site.saves[save]
  {
    var d := site.saves[save];
    var table := d[LookupFile].table;
    var flag := StagedName(session, FlagFile);
    if timedOut {
      site.LogError(save, Incident.TimedOut, None);
      return WaitTimedOut;
    }
    if flag !in site.remote {
      site.saves := site.saves[save := d - {ParametersFile}];
      site.LogError(save, Incident.ResultsMissing, None);
      return NoFlag;
    }
    exit := ReadFlag(site, save, d - {ParametersFile, FlagFile}, k, session, p, table);
  }

  /** The success flag received over the local one, decoded, then unlinked; success leads to Adopt. */
  method ReadFlag(site: Site, save: string, d: Dir, k: Kind, session: string, p: ExecParams, table: LookupTable) returns (exit: Exit)
    requires StagedName(session, FlagFile) in site.remote
    requires LookupFile in d && ParametersFile !in d && FlagFile !in d
    modifies site
    ensures exit == CollectExit(site.remote, session, k, p, false, old(site.project.registry).Some?)
    ensures site.remote == old(site.remote) && site.images == old(site.images)
    ensures site.errors == old(site.errors) + CollectedErrors(Utils.ErrorLogPath(site.SaveDir(save), true), session, exit)
    ensures exit == RemoteFailed || (exit == Crashed && !FlagDecodes(site.remote, session)) ==>
              site.saves == old(site.saves)[save := d]
    ensures exit == OutputsMissing || (exit == Crashed && FlagDecodes(site.remote, session)) ==>
              site.saves == old(site.saves)[save := PullResults(d, site.remote, session)]
    ensures exit == Completed ==>
              site.saves == old(site.saves)[save := PullResults(d, site.remote, session)
                  [LookupFile := Table(table.(transmission := Adopted(site.remote[LedgerOutput(session)], k)))]]
    ensures exit == RemoteFailed ==> site.logs == old(site.logs)[save := old(site.LogOf(save)) + [Failed(JobName(k))]]
    ensures exit == Completed ==>
              site.logs == old(site.logs)[save := old(site.LogOf(save))
                                          + (CerLines(k, p, site.remote[LedgerOutput(session)]) + [Finished(JobName(k))])]
    ensures exit != RemoteFailed && exit != Completed ==> site.logs == old(site.logs)
    ensures exit == Completed && Registers(site.remote[LedgerOutput(session)], k) ==>
              site.project == old(site.project).(registry := Some(RegisterIfAbsent(
                old(site.project.registry).value, ArrayKey(p.newModelKey), StringParam(p.kept, NewModelName))))
    ensures !(exit == Completed && Registers(site.remote[LedgerOutput(session)], k)) ==> site.project == old(site.project)
    // the same, as the rest of the protocol sees it
    ensures save in site.saves && LookupFile in site.saves[save]
    ensures exit != Completed ==> site.saves[save][LookupFile] == d[LookupFile]
    ensures exit == Completed ==>
              site.saves[save][LookupFile] == Table(table.(transmission := Adopted(site.remote[LedgerOutput(session)], k)))
              && BoxesFile in site.saves[save] && TranscriptionFile in site.saves[save] && GeneratedFile in site.saves[save]
              && site.saves[save][BoxesFile] == site.remote[BoxesOutput(session)]
              && site.saves[save][TranscriptionFile] == site.remote[TranscriptionOutput(session)]
              && site.saves[save][GeneratedFile] == site.remote[GeneratedOutput(session)]
              && ParametersFile !in site.saves[save] && FlagFile !in site.saves[save]
  {
    var flag := StagedName(session, FlagFile);
    if !site.remote[flag].Flag? {
      site.saves := site.saves[save := d];
      site.LogError(save, Uncaught, None);
      return Crashed;
    }
    if site.remote[flag].success != Some(1) {
      site.saves := site.saves[save := d];
      site.AppendLog(save, [Failed(JobName(k))]);
      site.LogError(save, PythonFailed, Some(session));
      return RemoteFailed;
    }
    exit := Adopt(site, save, d, k, session, p, table);
  }

  /** The successful run: the receives, then the adopted ledger, the registry and the closing log lines. */
  method Adopt(site: Site, save: string, d: Dir, k: Kind, session: string, p: ExecParams, table: LookupTable) returns (exit: Exit)
    requires LookupFile in d && ParametersFile !in d && FlagFile !in d
    modifies site
    ensures exit == Completed || exit == Crashed || exit == OutputsMissing
    ensures exit == OutputsMissing <==> !AllOutputs(site.remote, session)
    ensures exit == Crashed <==>
              (AllOutputs(site.remote, session)
               && ((Validating(k, p) && !site.remote[LedgerOutput(session)].Table?)
                   || (Registers(site.remote[LedgerOutput(session)], k) && old(site.project.registry).None?)))
    ensures site.remote == old(site.remote) && site.images == old(site.images)
    ensures site.errors == old(site.errors) + CollectedErrors(Utils.ErrorLogPath(site.SaveDir(save), true), session, exit)
    ensures exit != Completed ==> site.saves == old(site.saves)[save := PullResults(d, site.remote, session)]
    ensures exit == Completed ==>
              site.saves == old(site.saves)[save := PullResults(d, site.remote, session)
                  [LookupFile := Table(table.(transmission := Adopted(site.remote[LedgerOutput(session)], k)))]]
    ensures exit == Completed ==>
              site.logs == old(site.logs)[save := old(site.LogOf(save))
                                          + (CerLines(k, p, site.remote[LedgerOutput(session)]) + [Finished(JobName(k))])]
    ensures exit != Completed ==> site.logs == old(site.logs)
    ensures exit == Completed && Registers(site.remote[LedgerOutput(session)], k) ==>
              site.project == old(site.project).(registry := Some(RegisterIfAbsent(
                old(site.project.registry).value, ArrayKey(p.newModelKey), StringParam(p.kept, NewModelName))))
    ensures !(exit == Completed && Registers(site.remote[LedgerOutput(session)], k)) ==> site.project == old(site.project)
    // the same, as the rest of the protocol sees it
    ensures save in site.saves && LookupFile in site.saves[save]
    ensures exit != Completed ==> site.saves[save][LookupFile] == d[LookupFile]
    ensures exit == Completed ==>
              site.saves[save][LookupFile] == Table(table.(transmission := Adopted(site.remote[LedgerOutput(session)], k)))
              && BoxesFile in site.saves[save] && TranscriptionFile in site.saves[save] && GeneratedFile in site.saves[save]
              && site.saves[save][BoxesFile] == site.remote[BoxesOutput(session)]
              && site.saves[save][TranscriptionFile] == site.remote[TranscriptionOutput(session)]
              && site.saves[save][GeneratedFile] == site.remote[GeneratedOutput(session)]
              && ParametersFile !in site.saves[save] && FlagFile !in site.saves[save]
  {
    var pulled := PullResults(d, site.remote, session);
    PulledTable(d, site.remote, session);
    if !AllOutputs(site.remote, session) {
      site.saves := site.saves[save := pulled];
      site.LogError(save, Incident.ResultsMissing, None);
      return OutputsMissing;
    }
    var received := site.remote[LedgerOutput(session)];
    if Validating(k, p) && !received.Table? {
      site.saves := site.saves[save := pulled];
      site.LogError(save, Uncaught, None);
      return Crashed;
    }
    var adopted := pulled[LookupFile := Table(table.(transmission := Adopted(received, k)))];
    var lines := CerLines(k, p, received) + [Finished(JobName(k))];
    PulledOutputs(d, site.remote, session, Table(table.(transmission := Adopted(received, k))));
    if Registers(received, k) {
      if site.project.registry.None? {
        site.saves := site.saves[save := pulled];
        site.LogError(save, Uncaught, None);
        return Crashed;
      }
      var reg := RegisterIfAbsent(site.project.registry.value, ArrayKey(p.newModelKey), StringParam(p.kept, NewModelName));
      site.project := site.project.(registry := Some(reg));
    }
    site.saves := site.saves[save := adopted];
    site.AppendLog(save, lines);
    exit := Completed;
  }

  /** The pulled folder keeps the save's lookup table. */
  lemma PulledTable(d: Dir, remote: Dir, session: string)
    requires LookupFile in d
    ensures LookupFile in PullResults(d, remote, session)
    ensures PullResults(d, remote, session)[LookupFile] == d[LookupFile]
  {
  }

  /** With every output there, the pulled folder holds the three received files and gets the new table. */
  lemma PulledOutputs(d: Dir, remote: Dir, session: string, t: File)
    requires AllOutputs(remote, session) && ParametersFile !in d && FlagFile !in d
    ensures var r := PullResults(d, remote, session)[LookupFile := t];
            && LookupFile in r && r[LookupFile] == t
            && BoxesFile in r && TranscriptionFile in r && GeneratedFile in r
            && r[BoxesFile] == remote[BoxesOutput(session)]
            && r[TranscriptionFile] == remote[TranscriptionOutput(session)]
            && r[GeneratedFile] == remote[GeneratedOutput(session)]
            && ParametersFile !in r && FlagFile !in r
  {
  }

  /** The job a request names, if it is one of the two the GPU server runs. */
  function RequestedKind(fe: Payload): Option<Kind>
  {
    ScriptKind(Get(fe, "executingScript"))
  }

  /** The parameters file of a dispatch on a save with boxes document `dir[BoxesFile]`. */
  function Plan(dir: Dir, k: Kind, fe: Payload, session: string): ExecParams
    requires Dispatchable(dir)
  {
    ParamsFor(Rebuilt(k, fe), dir[BoxesFile].images, session)
  }

  /** The files the loop sends for a save: its images, the fixed documents, the generated transcription if present. */
  function FilesToSend(dir: Dir): seq<string>
    requires Dispatchable(dir)
  {
    SendList(dir[BoxesFile].images, GeneratedFile in dir)
  }

  /**
   * One request to run_gpu_python_code.php. The session id (generate_id), the
   * transfers that fail, whether the wait for the worker times out, and the files
   * the worker leaves in the temp folder are inputs.
   */
  method Dispatch(site: Site, save: string, fe: Payload, session: string,
                  failures: set<string>, timedOut: bool, worker: Dir) returns (exit: Exit, status: int)
    modifies site
    ensures status == StatusOf(exit)
    ensures exit == MissingSave <==> save !in old(site.saves)
    ensures exit == BadScript <==> save in old(site.saves) && RequestedKind(fe).None?
    ensures exit == MissingSave ==>
              site.errors == old(site.errors) + [ErrorRecord(Utils.ErrorLogPath("", false), NoSaveDir, None)]
    ensures exit == BadScript ==>
              site.errors == old(site.errors) + [ErrorRecord(Utils.ErrorLogPath(site.SaveDir(save), true), BadScriptKey, None)]
    ensures exit == MissingSave || exit == BadScript ==>
              status == 400 && site.saves == old(site.saves) && site.logs == old(site.logs)
              && site.remote == old(site.remote) && site.project == old(site.project)
    ensures site.images == old(site.images)
    ensures save in old(site.saves) && RequestedKind(fe).Some? && !Dispatchable(old(site.saves[save])) ==>
              exit == Crashed && status == 200 && site.saves == old(site.saves) && site.logs == old(site.logs)
              && site.remote == old(site.remote) && site.project == old(site.project)
              && site.errors == old(site.errors) + [ErrorRecord(Utils.ErrorLogPath(site.SaveDir(save), true), Uncaught, None)]
    ensures save in old(site.saves) && RequestedKind(fe).Some? && Dispatchable(old(site.saves[save])) ==>
              save in site.saves && site.saves == old(site.saves)[save := site.saves[save]]
              && site.logs == old(site.logs)[save := old(site.LogOf(save))
                                             + StartEntry(RequestedKind(fe).value, Rebuilt(RequestedKind(fe).value, fe))
                                             + RunLines(RequestedKind(fe).value,
                                                        Plan(old(site.saves[save]), RequestedKind(fe).value, fe, session),
                                                        session, site.remote, exit)]
              && site.errors == old(site.errors) + RunErrors(Utils.ErrorLogPath(site.SaveDir(save), true), session, exit)
    ensures save in old(site.saves) && RequestedKind(fe).Some? && Dispatchable(old(site.saves[save])) ==>
              save in site.saves && Dispatched(old(site.saves[save]), old(site.remote), old(site.project.registry), RequestedKind(fe).value,
                         Plan(old(site.saves[save]), RequestedKind(fe).value, fe, session), session, failures, timedOut, worker,
                         exit, status, site.saves[save], site.remote, site.project.registry)
              && site.project.(registry := old(site.project.registry)) == old(site.project)
  {
    if save !in site.saves {
      // log_error_on_server($projectDir, …): $projectDir is never assigned, so the record goes to ./error.txt
      site.errors := site.errors + [ErrorRecord(Utils.ErrorLogPath("", false), NoSaveDir, None)];
      return MissingSave, 400;
    }
    var kind := RequestedKind(fe);
    if kind.None? {
      site.LogError(save, BadScriptKey, None);
      return BadScript, 400;
    }
    var k := kind.value;
    var dir := site.saves[save];
    if !Dispatchable(dir) {
      // array_keys of a missing "documents", or array_key_exists on a missing lookup table, throws
      site.LogError(save, Uncaught, None);
      return Crashed, 200;
    }
    var kept := ReconstructParameters(k, fe);
    var p := ParamsFor(kept, dir[BoxesFile].images, session);
    exit, status := Run(site, save, k, p, session, failures, timedOut, worker);
  }

  /**
   * What a dispatch of kind k with parameters p does to a dispatchable save `dir`,
   * the GPU server's temp folder and the project registry, seen from outside:
   * the files staged before the first failed transfer, the worker's outputs, and
   * then the ledger left in flight unless the run completed, in which case the
   * results and the remote ledger are adopted and a finished training registered.
   */
  predicate Dispatched(dir: Dir, remote0: Dir, reg0: Option<Registry>, k: Kind, p: ExecParams, session: string,
                       failures: set<string>, timedOut: bool, worker: Dir,
                       exit: Exit, status: int, dir1: Dir, remote1: Dir, reg1: Option<Registry>)
    requires Dispatchable(dir)
  {
    var prepared := PreparedDir(dir, k, session, p);
    var files := SendList(dir[BoxesFile].images, GeneratedFile in dir);
    var staged := remote0 + Staged(prepared, session, files, failures);
    if FirstFailure(prepared, files, failures) < |files| then
      exit == StagingFailed && status == 502 && dir1 == prepared && remote1 == staged && reg1 == reg0
    else
      remote1 == staged + worker && Collected(prepared, reg0, k, p, session, timedOut, exit, status, dir1, remote1, reg1)
  }

  /**
   * What the collection after the worker's run leaves, from the prepared save
   * `prepared` and the temp folder `remote1` the worker left: the ledger stays in
   * flight unless the run completed, in which case the results and the remote
   * ledger are adopted and a finished training registered.
   */
  predicate Collected(prepared: Dir, reg0: Option<Registry>, k: Kind, p: ExecParams, session: string, timedOut: bool,
                      exit: Exit, status: int, dir1: Dir, remote1: Dir, reg1: Option<Registry>)
    requires LookupFile in prepared && prepared[LookupFile].Table?
  {
    && exit == CollectExit(remote1, session, k, p, timedOut, reg0.Some?)
    && status == StatusOf(exit)
    && LookupFile in dir1
    && (exit != Completed ==> dir1[LookupFile] == prepared[LookupFile])
    && (exit == Completed ==>
          dir1[LookupFile] == Table(prepared[LookupFile].table.(transmission := Adopted(remote1[LedgerOutput(session)], k)))
          && BoxesFile in dir1 && TranscriptionFile in dir1 && GeneratedFile in dir1
          && dir1[BoxesFile] == remote1[BoxesOutput(session)]
          && dir1[TranscriptionFile] == remote1[TranscriptionOutput(session)]
          && dir1[GeneratedFile] == remote1[GeneratedOutput(session)]
          && ParametersFile !in dir1 && FlagFile !in dir1)
    && (reg1 == if exit == Completed && Registers(remote1[LedgerOutput(session)], k) then
                  Some(RegisterIfAbsent(reg0.value, ArrayKey(p.newModelKey), StringParam(p.kept, NewModelName)))
                else reg0)
    && dir1 == CollectedDir(prepared, remote1, session, k, exit)
  }

  /**
   * The whole save directory once the worker has run, per way out: the parameters
   * file unlinked once the flag was looked for, the flag once it was received, the
   * results received up to the first missing one once the flag said success, and
   * the adopted table on completion.
   */
  function CollectedDir(prepared: Dir, remote: Dir, session: string, k: Kind, exit: Exit): Dir
    requires LookupFile in prepared && prepared[LookupFile].Table?
  {
    var d := prepared - {ParametersFile, FlagFile};
    match exit
    case NoFlag => prepared - {ParametersFile}
    case RemoteFailed => d
    case OutputsMissing => PullResults(d, remote, session)
    case Crashed => if FlagDecodes(remote, session) then PullResults(d, remote, session) else d
    case Completed =>
      if LedgerOutput(session) in remote then
        PullResults(d, remote, session)[LookupFile := Table(prepared[LookupFile].table.(
                                          transmission := Adopted(remote[LedgerOutput(session)], k)))]
      else PullResults(d, remote, session)
    case _ => prepared
  }

  /** Collect's directory, way out by way out, is CollectedDir. */
  lemma CollectedDirIs(prepared: Dir, remote: Dir, session: string, k: Kind, exit: Exit, dir1: Dir)
    requires LookupFile in prepared && prepared[LookupFile].Table?
    requires exit != StagingFailed && exit != MissingSave && exit != BadScript
    requires exit == WaitTimedOut ==> dir1 == prepared
    requires exit == NoFlag ==> dir1 == prepared - {ParametersFile}
    requires exit == RemoteFailed || (exit == Crashed && !FlagDecodes(remote, session)) ==>
               dir1 == prepared - {ParametersFile, FlagFile}
    requires exit == OutputsMissing || (exit == Crashed && FlagDecodes(remote, session)) ==>
               dir1 == PullResults(prepared - {ParametersFile, FlagFile}, remote, session)
    requires exit == Completed ==>
               LedgerOutput(session) in remote
               && dir1 == PullResults(prepared - {ParametersFile, FlagFile}, remote, session)
                            [LookupFile := Table(prepared[LookupFile].table.(transmission := Adopted(remote[LedgerOutput(session)], k)))]
    ensures dir1 == CollectedDir(prepared, remote, session, k, exit)
  {
  }

  /** The lines a run appends to the save's log after its start entry. */
  function RunLines(k: Kind, p: ExecParams, session: string, remote: Dir, exit: Exit): seq<LogLine>
  {
    match exit
    case RemoteFailed => [Failed(JobName(k))]
    case Completed =>
      if LedgerOutput(session) in remote then CerLines(k, p, remote[LedgerOutput(session)]) + [Finished(JobName(k))]
      else [Finished(JobName(k))]
    case _ => []
  }

  /**
   * The records a run appends to the save's error.txt: a failed transfer and the
   * throw of the next call on the closed connection, or the worker's output
   * followed by what the collection logs.
   */
  function RunErrors(path: string, session: string, exit: Exit): seq<ErrorRecord>
  {
    if exit == StagingFailed then [ErrorRecord(path, SendFailed, None), ErrorRecord(path, Uncaught, None)]
    else [ErrorRecord(path, PythonOutput, None)] + CollectedErrors(path, session, exit)
  }

  /** The dispatch of a dispatchable save, from the ledger mark to the last log line. */
  method Run(site: Site, save: string, k: Kind, p: ExecParams, session: string,
             failures: set<string>, timedOut: bool, worker: Dir) returns (exit: Exit, status: int)
    requires save in site.saves && Dispatchable(site.saves[save])
    modifies site
    ensures save in site.saves && site.project.(registry := old(site.project.registry)) == old(site.project)
    ensures exit != MissingSave && exit != BadScript && status == StatusOf(exit)
    ensures Dispatched(old(site.saves[save]), old(site.remote), old(site.project.registry), k, p, session, failures,
                       timedOut, worker, exit, status, site.saves[save], site.remote, site.project.registry)
    ensures site.saves == old(site.saves)[save := site.saves[save]] && site.images == old(site.images)
    ensures site.logs == old(site.logs)[save := old(site.LogOf(save)) + StartEntry(k, p.kept)
                                                + RunLines(k, p, session, site.remote, exit)]
    ensures site.errors == old(site.errors) + RunErrors(Utils.ErrorLogPath(site.SaveDir(save), true), session, exit)
  {
    var dir := site.saves[save];
    ghost var log0 := site.LogOf(save);
    ghost var errors0 := site.errors;
    ghost var saves0, logs0 := site.saves, site.logs;
    ghost var path := Utils.ErrorLogPath(site.SaveDir(save), true);
    Prepare(site, save, k, session, p);
    var prepared := site.saves[save];
    assert prepared == PreparedDir(dir, k, session, p);
    var ok := Stage(site, save, session, SendList(dir[BoxesFile].images, GeneratedFile in dir), failures);
    if !ok {
      // the next ssh2 call on the closed connection throws
      site.LogError(save, Uncaught, None);
      assert RunLines(k, p, session, site.remote, StagingFailed) == [];
      assert log0 + StartEntry(k, p.kept) + [] == log0 + StartEntry(k, p.kept);
      assert site.errors == errors0 + RunErrors(path, session, StagingFailed);
      return StagingFailed, StatusOf(StagingFailed);
    }
    assert site.errors == errors0;
    exit := Execute(site, save, k, session, p, timedOut, worker);
    status := StatusOf(exit);
    UpdatedTwice(saves0, save, prepared, site.saves[save]);
    UpdatedTwice(logs0, save, log0 + StartEntry(k, p.kept), log0 + StartEntry(k, p.kept) + RunLines(k, p, session, site.remote, exit));
    Appended(errors0, [ErrorRecord(path, PythonOutput, None)], CollectedErrors(path, session, exit));
  }

  /** The worker's run and its collection: the worker's output logged, its files in the temp folder, then Collect. */
  method Execute(site: Site, save: string, k: Kind, session: string, p: ExecParams, timedOut: bool, worker: Dir)
    returns (exit: Exit)
    requires save in site.saves && save in site.logs
    requires LookupFile in site.saves[save] && site.saves[save][LookupFile].Table?
    modifies site
    ensures save in site.saves && site.remote == old(site.remote) + worker
    ensures exit != StagingFailed && exit != MissingSave && exit != BadScript
    ensures Collected(old(site.saves[save]), old(site.project.registry), k, p, session, timedOut,
                      exit, StatusOf(exit), site.saves[save], site.remote, site.project.registry)
    ensures site.saves == old(site.saves)[save := site.saves[save]] && site.images == old(site.images)
    ensures site.project.(registry := old(site.project.registry)) == old(site.project)
    ensures site.logs == old(site.logs)[save := old(site.LogOf(save)) + RunLines(k, p, session, site.remote, exit)]
    ensures site.errors == old(site.errors) + [ErrorRecord(Utils.ErrorLogPath(site.SaveDir(save), true), PythonOutput, None)]
                           + CollectedErrors(Utils.ErrorLogPath(site.SaveDir(save), true), session, exit)
  {
    site.LogError(save, PythonOutput, None);
    site.remote := site.remote + worker;
    ghost var logs0, prepared := site.logs, site.saves[save];
    exit := Collect(site, save, k, session, p, timedOut);
    CollectedDirIs(prepared, site.remote, session, k, exit, site.saves[save]);
    if exit != RemoteFailed && exit != Completed {
      assert RunLines(k, p, session, site.remote, exit) == [];
      assert logs0[save] + [] == logs0[save];
      UpdatedSame(logs0, save);
    }
  }

  /**
   * A timeout, a missing flag, a failure flag or a missing output leaves the ledger
   * entry in flight for this session, for the reconciliation sweep to close later.
   */
  lemma LedgerStaysInFlight(dir: Dir, remote0: Dir, reg0: Option<Registry>, k: Kind, p: ExecParams, session: string,
                            failures: set<string>, timedOut: bool, worker: Dir,
                            exit: Exit, status: int, dir1: Dir, remote1: Dir, reg1: Option<Registry>)
    requires Dispatchable(dir)
    requires Dispatched(dir, remote0, reg0, k, p, session, failures, timedOut, worker, exit, status, dir1, remote1, reg1)
    requires exit != Completed
    ensures LedgerOf(dir1).Some?
    ensures Awaiting(LedgerOf(dir1).value.Get(k)) && LedgerOf(dir1).value.Get(k).sessionId == session
    ensures reg1 == reg0
  {
    var prepared := PreparedDir(dir, k, session, p);
    assert dir1[LookupFile] == prepared[LookupFile];
  }

  /**
   * The files of the save a run touches: the lookup table, the flag, the parameters
   * file and the three result documents. Every other file is kept as it was, and a
   * run that ends before the results are received keeps the result documents too.
   */
  lemma {:induction false} RunKeepsOtherFiles(dir: Dir, remote0: Dir, reg0: Option<Registry>, k: Kind, p: ExecParams, session: string,
                                              failures: set<string>, timedOut: bool, worker: Dir,
                                              exit: Exit, status: int, dir1: Dir, remote1: Dir, reg1: Option<Registry>, f: string)
    requires Dispatchable(dir)
    requires Dispatched(dir, remote0, reg0, k, p, session, failures, timedOut, worker, exit, status, dir1, remote1, reg1)
    requires f in dir && f != LookupFile && f != FlagFile && f != ParametersFile
    requires (f != BoxesFile && f != TranscriptionFile && f != GeneratedFile)
             || exit == StagingFailed || exit == WaitTimedOut || exit == NoFlag || exit == RemoteFailed
    ensures f in dir1 && dir1[f] == dir[f]
  {
    var prepared := PreparedDir(dir, k, session, p);
    var d := prepared - {ParametersFile, FlagFile};
    assert f in prepared && prepared[f] == dir[f];
    assert f in d && d[f] == dir[f];
    if exit != StagingFailed && exit != WaitTimedOut && exit != NoFlag && exit != RemoteFailed {
      assert f in PullResults(d, remote1, session) && PullResults(d, remote1, session)[f] == dir[f];
    }
  }

  /**
   * A completed run whose remote ledger reports the kind finished leaves the entry
   * idle, and a training run's model is then registered under its key, keeping any
   * name registered before.
   */
  lemma CompletedRunCloses(dir: Dir, remote0: Dir, reg0: Option<Registry>, k: Kind, p: ExecParams, session: string,
                           failures: set<string>, timedOut: bool, worker: Dir,
                           exit: Exit, status: int, dir1: Dir, remote1: Dir, reg1: Option<Registry>)
    requires Dispatchable(dir)
    requires Dispatched(dir, remote0, reg0, k, p, session, failures, timedOut, worker, exit, status, dir1, remote1, reg1)
    requires exit == Completed
    requires RemoteLedger(remote1[LedgerOutput(session)]).Some?
    requires RemoteLedger(remote1[LedgerOutput(session)]).value.Get(k).finished == 1
    ensures status == 200
    ensures LedgerOf(dir1).Some? && Idle(LedgerOf(dir1).value.Get(k))
    ensures k == Training ==>
              reg1.Some? && ArrayKey(p.newModelKey) in reg1.value
              && (forall key :: key in reg0.value ==> key in reg1.value && reg1.value[key] == reg0.value[key])
  {
  }
}
