/**
 * web/image_processing_view/run_async_py_scripts.php: the endpoint that runs one of
 * the four CPU modules on a save through the CPU worker. It rebuilds the execution
 * parameters from the request, checking each against its range, writes them and a
 * success flag reset to 0 into the save, runs the worker, and reports success exactly
 * when the worker left the flag at 1.
 */
module AsyncScripts {
  import opened Wrappers
  import opened PhpValues
  import opened SaveFiles
  import opened Site
  import Utils
  import CpuWrapper
  import L = LocalDispatch

  /** The four modules, by their request key "executingScript". */
  datatype Script = LineSegmentation | Segmentation | Clustering | LabelPropagation

  /** $script_key === "…": only a string of exactly that text selects a module. */
  function ScriptOf(key: Value): (s: Option<Script>)
    ensures s.Some? ==> key.Str?
  {
    if key.Str? && key.s == "asyncLineSegmentation" then Some(LineSegmentation)
    else if key.Str? && key.s == "asyncSegmentation" then Some(Segmentation)
    else if key.Str? && key.s == "asyncClustering" then Some(Clustering)
    else if key.Str? && key.s == "asyncLabelPropagation" then Some(LabelPropagation)
    else None
  }

  /** The script the worker is told to run; every one of them is a code the worker knows. */
  function ScriptFile(s: Script): (f: string)
    ensures f in CpuWrapper.Codes
  {
    match s
    case LineSegmentation => "datech_line_segmentation.py"
    case Segmentation => "async_segmentation.py"
    case Clustering => "async_kmeans.py"
    case LabelPropagation => "async_label_propagation.py"
  }

  /** The name the log uses for the job. */
  function JobName(s: Script): string
  {
    match s
    case LineSegmentation => "Line segmentation"
    case Segmentation => "Segmentation"
    case Clustering => "Clustering"
    case LabelPropagation => "Label propagation"
  }

  /** Different requests run different scripts under different log names. */
  lemma ScriptsDistinct(s: Script, t: Script)
    requires s != t
    ensures ScriptFile(s) != ScriptFile(t) && JobName(s) != JobName(t)
  {
  }

  // ---------------------------------------------------------------------------
  // The execution parameters
  // ---------------------------------------------------------------------------

  /** How one parameter is checked: an integer range, a numeric range, or a switch. */
  datatype Check = Whole(lo: int, hi: int) | Number(low: real, high: real) | Switch

  /** The boolean parameters of the segmentation, in the order the endpoint sets them. */
  const SwitchParams: seq<string> :=
    ["littleSymbol", "topBottomCheck", "leftRightCheck", "insideCheck", "combineLittleSymbols",
     "permitCollision", "specialSymbols_likely_surrounded"]

  /** The parameters each module takes, and how each is checked. */
  function Checks(s: Script): map<string, Check>
  {
    match s
    case LineSegmentation => map["two_segmented_lines" := Switch]
    case Segmentation => SegmentationNumbers + map p | p in SwitchParams :: Switch
    case Clustering => map["minImages" := Whole(1, 100)]
    case LabelPropagation => map["alphaLabelPropagation" := Number(0.01, 1.0)]
  }

  /** Whether the request's value is kept: a switch always is, a number when in range. */
  predicate Passes(c: Check, v: Value)
  {
    match c
    case Whole(lo, hi) => IntIn(v, lo, hi)
    case Number(lo, hi) => NumericIn(v, lo, hi)
    case Switch => true
  }

  /** What is kept: a switch as true or false by the value's truthiness, a number as sent. */
  function Stored(c: Check, v: Value): Value
  {
    if c.Switch? then Bool(Truthy(v)) else v
  }

  /** The parameters rebuilt from the request's "execution_parameters_to_server". */
  function Rebuilt(s: Script, fe: Payload): Payload
  {
    map key | key in Checks(s) && Passes(Checks(s)[key], Get(fe, key)) :: Stored(Checks(s)[key], Get(fe, key))
  }

  /**
   * The rebuilt parameters hold only the module's own parameters, each one checked:
   * a number exactly when it is an integer (or a number) within its range, as sent,
   * and every switch, as a boolean.
   */
  lemma RebuiltChecked(s: Script, fe: Payload, key: string)
    ensures key in Rebuilt(s, fe) ==> key in Checks(s)
    ensures key in Checks(s) && Checks(s)[key].Switch? ==>
              key in Rebuilt(s, fe) && Rebuilt(s, fe)[key] == Bool(Truthy(Get(fe, key)))
    ensures key in Checks(s) && Checks(s)[key].Whole? ==>
              (key in Rebuilt(s, fe) <==> Get(fe, key).Int? && Checks(s)[key].lo <= Get(fe, key).i <= Checks(s)[key].hi)
    ensures key in Checks(s) && Checks(s)[key].Number? ==>
              (key in Rebuilt(s, fe) <==> IsNumeric(Get(fe, key))
                                          && Checks(s)[key].low <= NumberOf(Get(fe, key)).value <= Checks(s)[key].high)
    ensures key in Rebuilt(s, fe) && !Checks(s)[key].Switch? ==> Rebuilt(s, fe)[key] == Get(fe, key)
  {
  }

  /** Nothing else of the request reaches the server: requests that agree on the module's parameters rebuild alike. */
  lemma OnlyCheckedKeysMatter(s: Script, fe: Payload, fe': Payload)
    requires forall key :: key in Checks(s) ==> Get(fe, key) == Get(fe', key)
    ensures Rebuilt(s, fe) == Rebuilt(s, fe')
  {
  }

  /** The segmentation always sends all seven switches, and line segmentation exactly its one. */
  lemma SwitchesAlwaysSent(fe: Payload, i: int)
    requires 0 <= i < |SwitchParams|
    ensures SwitchParams[i] in Rebuilt(Segmentation, fe) && Rebuilt(Segmentation, fe)[SwitchParams[i]].Bool?
    ensures Rebuilt(LineSegmentation, fe).Keys == {"two_segmented_lines"}
  {
    assert SwitchParams[i] in Checks(Segmentation);
    RebuiltChecked(Segmentation, fe, SwitchParams[i]);
  }

  /** The segmentation's numeric parameters and their ranges. */
  const SegmentationNumbers: map<string, Check> :=
    map["minDistLineSeg" := Whole(1, 500), "thresLineSeg" := Number(0.01, 1.0),
        "thAboveBelowSymbol" := Whole(1, 100), "thSizeCC" := Whole(1, 200)]

  /** The switches among the first n of SwitchParams, as the loop has set them. */
  function SwitchesOf(fe: Payload, n: nat): Payload
    requires n <= |SwitchParams|
  {
    map p | p in SwitchParams[..n] :: Bool(Truthy(Get(fe, p)))
  }

  /** The segmentation's numbers that pass their checks. */
  function NumbersOf(fe: Payload): Payload
  {
    map key | key in SegmentationNumbers && Passes(SegmentationNumbers[key], Get(fe, key)) :: Get(fe, key)
  }

  /** The loop's step: one more switch set, over whatever the numbers were. */
  lemma SwitchesStep(numbers: Payload, fe: Payload, n: nat)
    requires n < |SwitchParams|
    ensures (numbers + SwitchesOf(fe, n))[SwitchParams[n] := Bool(Truthy(Get(fe, SwitchParams[n])))]
            == numbers + SwitchesOf(fe, n + 1)
  {
    assert SwitchParams[..n + 1] == SwitchParams[..n] + [SwitchParams[n]];
    var p := SwitchParams[n];
    var a := (numbers + SwitchesOf(fe, n))[p := Bool(Truthy(Get(fe, p)))];
    var b := numbers + SwitchesOf(fe, n + 1);
    forall key
      ensures (key in a <==> key in b) && (key in a ==> a[key] == b[key])
    {
      if key != p && key in SwitchParams[..n + 1] {
        assert key in SwitchParams[..n];
      }
    }
  }

  /** No switch is also a numeric parameter. */
  lemma SwitchesAreNotNumbers(p: string)
    requires p in SwitchParams
    ensures p !in SegmentationNumbers
  {
    var i :| 0 <= i < |SwitchParams| && SwitchParams[i] == p;
  }

  /** One key of the segmentation's parameters: a number in range, or a switch. */
  lemma SegmentationKey(fe: Payload, key: string)
    ensures var m := NumbersOf(fe) + SwitchesOf(fe, |SwitchParams|);
            && (key in Rebuilt(Segmentation, fe) <==> key in m)
            && (key in m ==> Rebuilt(Segmentation, fe)[key] == m[key])
  {
    var switches := SwitchesOf(fe, |SwitchParams|);
    assert SwitchParams[..|SwitchParams|] == SwitchParams;
    assert key in switches <==> key in SwitchParams;
    if key in SwitchParams {
      SwitchesAreNotNumbers(key);
      assert Checks(Segmentation)[key] == Switch;
    } else {
      assert key in Checks(Segmentation) <==> key in SegmentationNumbers;
      assert key in SegmentationNumbers ==> Checks(Segmentation)[key] == SegmentationNumbers[key];
    }
  }

  /** The segmentation's parameters: its numbers in range, then all its switches. */
  lemma SegmentationSplits(fe: Payload)
    ensures Rebuilt(Segmentation, fe) == NumbersOf(fe) + SwitchesOf(fe, |SwitchParams|)
  {
    var r := Rebuilt(Segmentation, fe);
    var m := NumbersOf(fe) + SwitchesOf(fe, |SwitchParams|);
    forall key
      ensures (key in r <==> key in m) && (key in m ==> r[key] == m[key])
    {
      SegmentationKey(fe, key);
    }
  }

  /** The segmentation's four range tests, in the endpoint's order. */
  method KeepNumbers(fe: Payload) returns (params: Payload)
    ensures params == NumbersOf(fe)
  {
    params := map[];
    if IntIn(Get(fe, "minDistLineSeg"), 1, 500) {
      params := params["minDistLineSeg" := Get(fe, "minDistLineSeg")];
    }
    if NumericIn(Get(fe, "thresLineSeg"), 0.01, 1.0) {
      params := params["thresLineSeg" := Get(fe, "thresLineSeg")];
    }
    if IntIn(Get(fe, "thAboveBelowSymbol"), 1, 100) {
      params := params["thAboveBelowSymbol" := Get(fe, "thAboveBelowSymbol")];
    }
    if IntIn(Get(fe, "thSizeCC"), 1, 200) {
      params := params["thSizeCC" := Get(fe, "thSizeCC")];
    }
  }

  /** The loop over $boolean_parameters: each switch set to true or false. */
  method SetSwitches(numbers: Payload, fe: Payload) returns (params: Payload)
    ensures params == numbers + SwitchesOf(fe, |SwitchParams|)
  {
    params := numbers;
    var i := 0;
    while i < |SwitchParams|
      invariant 0 <= i <= |SwitchParams|
      invariant params == numbers + SwitchesOf(fe, i)
    {
      SwitchesStep(numbers, fe, i);
      params := params[SwitchParams[i] := Bool(Truthy(Get(fe, SwitchParams[i])))];
      i := i + 1;
    }
  }

  /** The rebuild of the segmentation's parameters: the numbers, then the switches. */
  method ReconstructSegmentation(fe: Payload) returns (params: Payload)
    ensures params == Rebuilt(Segmentation, fe)
  {
    var numbers := KeepNumbers(fe);
    params := SetSwitches(numbers, fe);
    SegmentationSplits(fe);
  }

  /** The rebuild: the branch of the requested module. */
  method Reconstruct(s: Script, fe: Payload) returns (params: Payload)
    ensures params == Rebuilt(s, fe)
  {
    match s {
      case LineSegmentation =>
        params := map["two_segmented_lines" := Bool(Truthy(Get(fe, "two_segmented_lines")))];
      case Segmentation =>
        params := ReconstructSegmentation(fe);
      case Clustering =>
        params := map[];
        if IntIn(Get(fe, "minImages"), 1, 100) {
          params := params["minImages" := Get(fe, "minImages")];
        }
      case LabelPropagation =>
        params := map[];
        if NumericIn(Get(fe, "alphaLabelPropagation"), 0.01, 1.0) {
          params := params["alphaLabelPropagation" := Get(fe, "alphaLabelPropagation")];
        }
    }
  }

  // ---------------------------------------------------------------------------
  // The run
  // ---------------------------------------------------------------------------

  /** The save as the worker finds it: the parameters written, then the flag reset to 0. */
  function Staged(dir: Dir, params: Payload): Dir
  {
    dir[ParametersFile := Settings(params)][FlagFile := Flag(Some(0))]
  }

  /** What happens after the worker, from the save directory `d` it left (parameters file removed). */
  datatype Finish = Finish(exit: L.Exit, dir: Dir, lines: seq<LogLine>)

  /**
   * The flag decides: a flag file that does not decode to an object throws (the flag
   * file then stays); otherwise it is removed, and the run succeeded exactly when
   * its success key is the integer 1. Nothing else of the save changes.
   */
  function AfterRun(d: Dir, s: Script): (r: Finish)
    ensures r.exit == L.Completed || r.exit == L.RunFailed || r.exit == L.Crashed
    ensures r.exit == L.Completed <==> FlagFile in d && d[FlagFile] == Flag(Some(1))
    ensures r.exit == L.Crashed <==> !(FlagFile in d && d[FlagFile].Flag?)
    ensures r.exit == L.Completed ==> r.lines == [Finished(JobName(s))]
    ensures r.exit == L.RunFailed ==> r.lines == [Failed(JobName(s))] && L.StatusOf(r.exit) == 502
    ensures r.exit == L.Crashed ==> r.lines == [] && r.dir == d
    ensures r.exit != L.Crashed ==> r.dir == d - {FlagFile}
  {
    if !(FlagFile in d && d[FlagFile].Flag?) then Finish(L.Crashed, d, [])
    else if d[FlagFile].success == Some(1) then Finish(L.Completed, d - {FlagFile}, [Finished(JobName(s))])
    else Finish(L.RunFailed, d - {FlagFile}, [Failed(JobName(s))])
  }

  /** A worker that never touches the flag fails the run: the flag was reset before it ran. */
  lemma UntouchedFlagFails(dir: Dir, params: Payload, worker: Dir, s: Script)
    requires FlagFile !in worker
    ensures AfterRun(Staged(dir, params) + worker - {ParametersFile}, s).exit == L.RunFailed
  {
    var d := Staged(dir, params) + worker - {ParametersFile};
    assert FlagFile in d && d[FlagFile] == Flag(Some(0));
  }

  /**
   * A run of the CPU worker, started on the flag the endpoint reset, completes the
   * request exactly when the worker raised nothing.
   */
  lemma WorkerOutcomeDecides(dir: Dir, params: Payload, worker: Dir, s: Script,
                             userProjects: string, inputs: CpuWrapper.Inputs, proc: CpuWrapper.Call -> CpuWrapper.Reply)
    requires inputs.flag == map[SuccessKey := 0]
    requires var r := CpuWrapper.Work(ScriptFile(s), userProjects, inputs, proc);
             FlagFile in worker && worker[FlagFile] == FlagFileOf(CpuWrapper.FlagLeft(inputs.flag, r))
    ensures var r := CpuWrapper.Work(ScriptFile(s), userProjects, inputs, proc);
            AfterRun(Staged(dir, params) + worker - {ParametersFile}, s).exit == L.Completed <==> r.raised.None?
  {
    CpuWrapper.FlagTellsOutcome(ScriptFile(s), userProjects, inputs, proc);
  }

  /** The error record a way out leaves in the save's error.txt. */
  function ErrorsOf(path: string, exit: L.Exit): seq<ErrorRecord>
  {
    match exit
    case RunFailed => [ErrorRecord(path, PythonFailed, None)]
    case Crashed => [ErrorRecord(path, Uncaught, None)]
    case _ => []
  }

  /** Everything before the worker: the start logged, the parameters written, the flag reset. */
  method Prepare(site: Site, save: string, s: Script, params: Payload)
    requires save in site.saves
    modifies site
    ensures site.saves == old(site.saves)[save := Staged(old(site.saves[save]), params)]
    ensures site.logs == old(site.logs)[save := old(site.LogOf(save)) + [Starting(JobName(s))]]
    ensures site.project == old(site.project) && site.images == old(site.images)
    ensures site.errors == old(site.errors) && site.remote == old(site.remote)
  {
    site.AppendLog(save, [Starting(JobName(s))]);
    site.saves := site.saves[save := site.saves[save][ParametersFile := Settings(params)]];
    site.saves := site.saves[save := site.saves[save][FlagFile := Flag(Some(0))]];
  }

  /** The worker's files merged in, the parameters removed, the flag read and the outcome logged. */
  method Conclude(site: Site, save: string, s: Script, worker: Dir) returns (exit: L.Exit)
    requires save in site.saves
    modifies site
    ensures var r := AfterRun(old(site.saves[save]) + worker - {ParametersFile}, s);
            && exit == r.exit
            && site.saves == old(site.saves)[save := r.dir]
            && site.logs == old(site.logs)[save := old(site.LogOf(save)) + r.lines]
            && site.errors == old(site.errors) + ErrorsOf(Utils.ErrorLogPath(site.SaveDir(save), true), exit)
    ensures site.project == old(site.project) && site.images == old(site.images) && site.remote == old(site.remote)
  {
    site.saves := site.saves[save := site.saves[save] + worker - {ParametersFile}];
    var r := AfterRun(site.saves[save], s);
    site.saves := site.saves[save := r.dir];
    site.AppendLog(save, r.lines);
    exit := r.exit;
    match exit {
      case RunFailed => site.LogError(save, PythonFailed, None);
      case Crashed => site.LogError(save, Uncaught, None);
      case _ =>
    }
  }

  /** The whole run of module s with parameters params on an existing save. */
  method Run(site: Site, save: string, s: Script, params: Payload, worker: Dir) returns (exit: L.Exit)
    requires save in site.saves
    modifies site
    ensures var r := AfterRun(Staged(old(site.saves[save]), params) + worker - {ParametersFile}, s);
            && exit == r.exit
            && site.saves == old(site.saves)[save := r.dir]
            && site.logs == old(site.logs)[save := old(site.LogOf(save)) + [Starting(JobName(s))] + r.lines]
            && site.errors == old(site.errors) + ErrorsOf(Utils.ErrorLogPath(site.SaveDir(save), true), r.exit)
    ensures site.project == old(site.project) && site.images == old(site.images) && site.remote == old(site.remote)
  {
    ghost var log0 := site.LogOf(save);
    Prepare(site, save, s, params);
    assert site.LogOf(save) == log0 + [Starting(JobName(s))];
    exit := Conclude(site, save, s, worker);
  }

  /**
   * One request: `fe` is its "execution_parameters_to_server", `worker` the files the
   * CPU worker leaves in the save directory.
   */
  method Dispatch(site: Site, save: string, fe: Payload, worker: Dir) returns (exit: L.Exit, status: int)
    modifies site
    ensures status == L.StatusOf(exit)
    ensures site.project == old(site.project) && site.images == old(site.images) && site.remote == old(site.remote)
    ensures exit == L.MissingSave <==> save !in old(site.saves)
    ensures exit == L.MissingSave ==>
              site.errors == old(site.errors) + [ErrorRecord(Utils.ErrorLogPath(site.projectDir, true), NoSaveDir, None)]
              && site.saves == old(site.saves) && site.logs == old(site.logs)
    ensures exit == L.BadScript <==> save in old(site.saves) && ScriptOf(Get(fe, "executingScript")).None?
    ensures exit == L.BadScript ==>
              site.errors == old(site.errors) + [ErrorRecord(Utils.ErrorLogPath(site.SaveDir(save), true), BadScriptKey, None)]
              && site.saves == old(site.saves) && site.logs == old(site.logs)
    ensures save in old(site.saves) && ScriptOf(Get(fe, "executingScript")).Some? ==>
              var s := ScriptOf(Get(fe, "executingScript")).value;
              var r := AfterRun(Staged(old(site.saves[save]), Rebuilt(s, fe)) + worker - {ParametersFile}, s);
              && exit == r.exit
              && site.saves == old(site.saves)[save := r.dir]
              && site.logs == old(site.logs)[save := old(site.LogOf(save)) + [Starting(JobName(s))] + r.lines]
              && site.errors == old(site.errors) + ErrorsOf(Utils.ErrorLogPath(site.SaveDir(save), true), r.exit)
  {
    if save !in site.saves {
      site.errors := site.errors + [ErrorRecord(Utils.ErrorLogPath(site.projectDir, true), NoSaveDir, None)];
      return L.MissingSave, 400;
    }
    var script := ScriptOf(Get(fe, "executingScript"));
    if script.None? {
      site.LogError(save, BadScriptKey, None);
      return L.BadScript, 400;
    }
    var s := script.value;
    var params := Reconstruct(s, fe);
    exit := Run(site, save, s, params, worker);
    status := L.StatusOf(exit);
  }
}
