/**
 * The GPU worker (gpu/gpu_image_processing_wrapper.py): it checks the target code,
 * sets the frozen boxes aside, runs the few-shot recognition or training module,
 * puts the frozen boxes back and, only when the module reports no error, writes its
 * suffixed outputs, flags the executed kind finished in its copy of the ledger and
 * sets the success flag.
 *
 * The few-shot module itself (image cropping, the network, the geometry that turns
 * its predictions into boxes and lines) is an input: its error message, the symbol
 * boxes it returns per image, its fixed alphabet, the generated transcription it
 * renders and the CER a validated training reports.
 */
module GpuWrapper {
  import opened Wrappers
  import opened Ledger
  import opened SaveFiles
  import opened Strings
  import opened FrozenBoxes
  import Utils
  import GpuDispatch

  // ---------------------------------------------------------------------------
  // append_to_filename
  // ---------------------------------------------------------------------------

  /** Some character of p[lo..hi] is not a dot. */
  predicate HasNonDot(p: string, lo: int, hi: int)
    requires 0 <= lo && hi <= |p|
  {
    exists i :: lo <= i < hi && p[i] != '.'
  }

  /**
   * os.path.splitext on a POSIX path: the extension starts at the last dot of the
   * last path component, unless everything before that dot in the component is dots.
   */
  function SplitExt(p: string): (string, string)
  {
    var sep := LastIndexOf(p, '/');
    var dot := LastIndexOf(p, '.');
    if dot > sep && HasNonDot(p, sep + 1, dot) then (p[..dot], p[dot..]) else (p, "")
  }

  function AppendToFilename(p: string, addition: string): string
  {
    var (root, ext) := SplitExt(p);
    root + addition + ext
  }

  /** The root and the extension put back together give the path. */
  lemma SplitExtJoins(p: string)
    ensures SplitExt(p).0 + SplitExt(p).1 == p
  {
  }

  /** Appending nothing leaves the path as it was. */
  lemma AppendNothing(p: string)
    ensures AppendToFilename(p, "") == p
  {
    SplitExtJoins(p);
  }

  /**
   * The worker's output path for a staged "<session>-<base>.json" in the temp folder
   * is the name the dispatcher and the sweep receive: "<session>-<base>_output.json".
   */
  lemma OutputPathOfStaged(dir: string, session: string, base: string)
    requires Avoids(session, '/') && Avoids(base, '/')
    ensures AppendToFilename(dir + "/" + StagedName(session, base + ".json"), Suffix)
            == dir + "/" + OutputName(session, base)
  {
    var root := dir + "/" + session + "-" + base;
    StagedSplit(dir, session, base);
    assert root + Suffix + ".json" == dir + "/" + (session + "-" + (base + Suffix + ".json"));
  }

  /** splitext of a staged JSON path splits off ".json". */
  lemma StagedSplit(dir: string, session: string, base: string)
    requires Avoids(session, '/') && Avoids(base, '/')
    ensures SplitExt(dir + "/" + StagedName(session, base + ".json")) == (dir + "/" + session + "-" + base, ".json")
  {
    var p := dir + "/" + StagedName(session, base + ".json");
    var rest := session + "-" + base + ".json";
    assert p == dir + ['/'] + rest;
    StagedHasNoSlash(session, base);
    LastIndexAt(dir, '/', rest);
    var root := dir + "/" + session + "-" + base;
    assert p == root + ['.'] + "json";
    assert Avoids("json", '.');
    LastIndexAt(root, '.', "json");
    var dash := |dir| + 1 + |session|;
    assert p[dash] == '-';
    assert HasNonDot(p, |dir| + 1, |root|);
    assert p[..|root|] == root && p[|root|..] == ".json";
  }

  /** A staged name has no slash when its session and base have none. */
  lemma StagedHasNoSlash(session: string, base: string)
    requires Avoids(session, '/') && Avoids(base, '/')
    ensures Avoids(session + "-" + base + ".json", '/')
  {
    var rest := session + "-" + base + ".json";
    forall i | 0 <= i < |rest| ensures rest[i] != '/' {
      if i < |session| { assert rest[i] == session[i]; }
      else if i == |session| { assert rest[i] == '-'; }
      else if i < |session| + 1 + |base| { assert rest[i] == base[i - |session| - 1]; }
      else { assert rest[i] == ".json"[i - |session| - 1 - |base|]; }
    }
  }

  /** The four outputs the worker writes for the paths of the dispatcher's command. */
  lemma WorkerWritesExpectedOutputs(gpuFolder: string, session: string, k: Kind)
    requires Avoids(session, '/')
    ensures var c := GpuDispatch.BuildCommand(gpuFolder, session, k);
            var t := GpuDispatch.TempDir(gpuFolder) + "/";
            && AppendToFilename(c.boxes, c.suffix) == t + GpuDispatch.BoxesOutput(session)
            && AppendToFilename(c.transcription, c.suffix) == t + GpuDispatch.TranscriptionOutput(session)
            && AppendToFilename(c.generated, c.suffix) == t + GpuDispatch.GeneratedOutput(session)
            && AppendToFilename(c.lookupTable, c.suffix) == t + GpuDispatch.LedgerOutput(session)
  {
    var d := GpuDispatch.TempDir(gpuFolder);
    assert BoxesFile == "bounding_boxes" + ".json";
    assert TranscriptionFile == "transcription" + ".json";
    assert GeneratedFile == "generated_transcription" + ".json";
    assert LookupFile == "lookup_table" + ".json";
    OutputPathOfStaged(d, session, "bounding_boxes");
    OutputPathOfStaged(d, session, "transcription");
    OutputPathOfStaged(d, session, "generated_transcription");
    OutputPathOfStaged(d, session, "lookup_table");
  }

  // ---------------------------------------------------------------------------
  // The target code
  // ---------------------------------------------------------------------------

  /** "--code": the two modules the worker runs; anything else raises ValueError. */
  function TargetCode(code: string): Option<Kind>
  {
    if code == "test_few_shot.py" then Some(Recognition)
    else if code == "train_few_shot.py" then Some(Training)
    else None
  }

  /** The worker accepts exactly the script names the dispatcher puts in its command. */
  lemma TargetCodeMatchesDispatcher(code: string, k: Kind)
    ensures TargetCode(code) == Some(k) <==> code == GpuDispatch.ScriptFile(k)
    ensures TargetCode(code).None? <==> code != GpuDispatch.ScriptFile(Recognition) && code != GpuDispatch.ScriptFile(Training)
  {
  }

  // ---------------------------------------------------------------------------
  // Transcription merge
  // ---------------------------------------------------------------------------

  /** The number of decimal digits of n, less one: floor(log10(n)) for n >= 1, and 0 for 0. */
  function Magnitude(n: nat): nat
  {
    if n < 10 then 0 else 1 + Magnitude(n / 10)
  }

  lemma {:induction false} MagnitudeBounds(n: nat)
    ensures n < Utils.Pow10(Magnitude(n) + 1)
    ensures n >= 10 ==> Utils.Pow10(Magnitude(n)) <= n
  {
    if n >= 10 {
      MagnitudeBounds(n / 10);
    }
  }

  lemma {:induction false} MagnitudeMonotone(m: nat, n: nat)
    requires m <= n
    ensures Magnitude(m) <= Magnitude(n)
  {
    if m >= 10 {
      MagnitudeMonotone(m / 10, n / 10);
    }
  }

  /** Python's str(n) for a non-negative int. */
  function Str(n: nat): string
  {
    Utils.Digits(n, Magnitude(n) + 1)
  }

  /** str is one-to-one on the non-negative ints. */
  lemma StrInjective(m: nat, n: nat)
    ensures Str(m) == Str(n) ==> m == n
  {
    StrParses(m);
    StrParses(n);
  }

  /** str(n) reads back as n. */
  lemma StrParses(n: nat)
    ensures Utils.ParseDigits(Str(n)) == n
  {
    MagnitudeBounds(n);
    Utils.DigitsRoundTrip(n, Magnitude(n) + 1);
  }

  /** An entry of transcription.json: its "transcription" and whatever else it holds. */
  datatype Symbol = Symbol(transcription: string, others: map<string, string>)

  /** The keys str(0) .. str(n-1). */
  function IndexKeys(n: nat): set<string>
  {
    set i | 0 <= i < n :: Str(i)
  }

  /**
   * The loop over fixed_alphabet: transcriptions[str(i)] holds fixed_alphabet[i]
   * afterwards; an entry that already says so is kept whole, any other is replaced
   * by a fresh entry.
   */
  function Merged(ts: map<string, Symbol>, alphabet: seq<string>): map<string, Symbol>
    decreases |alphabet|
  {
    if alphabet == [] then ts
    else
      var n := |alphabet| - 1;
      var m := Merged(ts, alphabet[..n]);
      var key := Str(n);
      if key in m && m[key].transcription == alphabet[n] then m else m[key := Symbol(alphabet[n], map[])]
  }

  /** The merge, updating transcriptions in place. */
  method MergeAlphabet(ts: map<string, Symbol>, alphabet: seq<string>) returns (r: map<string, Symbol>)
    ensures r == Merged(ts, alphabet)
  {
    r := ts;
    var i := 0;
    while i < |alphabet|
      invariant 0 <= i <= |alphabet|
      invariant r == Merged(ts, alphabet[..i])
    {
      assert alphabet[..i + 1][..i] == alphabet[..i];
      var key := Str(i);
      if key in r {
        if r[key].transcription != alphabet[i] {
          r := r[key := Symbol(alphabet[i], map[])];
        }
      } else {
        r := r[key := Symbol(alphabet[i], map[])];
      }
      i := i + 1;
    }
    assert alphabet[..i] == alphabet;
  }

  /** str(n) is not among str(0) .. str(n-1). */
  lemma StrFresh(n: nat)
    ensures Str(n) !in IndexKeys(n)
  {
    if Str(n) in IndexKeys(n) {
      var j :| 0 <= j < n && Str(j) == Str(n);
      StrInjective(j, n);
    }
  }

  /** The merge adds exactly the keys str(0) .. str(n-1). */
  lemma {:induction false} MergedKeys(ts: map<string, Symbol>, alphabet: seq<string>)
    ensures Merged(ts, alphabet).Keys == ts.Keys + IndexKeys(|alphabet|)
    decreases |alphabet|
  {
    if alphabet != [] {
      var n := |alphabet| - 1;
      MergedKeys(ts, alphabet[..n]);
      assert IndexKeys(n + 1) == IndexKeys(n) + {Str(n)};
    }
  }

  /** A key that is no cluster index of the alphabet is untouched. */
  lemma {:induction false} MergedLeavesOthers(ts: map<string, Symbol>, alphabet: seq<string>, key: string)
    requires key in ts && key !in IndexKeys(|alphabet|)
    ensures key in Merged(ts, alphabet) && Merged(ts, alphabet)[key] == ts[key]
    decreases |alphabet|
  {
    if alphabet != [] {
      var n := |alphabet| - 1;
      assert Str(n) in IndexKeys(n + 1);
      assert IndexKeys(n) <= IndexKeys(n + 1);
      MergedLeavesOthers(ts, alphabet[..n], key);
    }
  }

  /** Cluster index i names letter i; an entry that already did is kept whole. */
  lemma {:induction false} MergedNames(ts: map<string, Symbol>, alphabet: seq<string>, i: nat)
    requires i < |alphabet|
    ensures var r := Merged(ts, alphabet);
            && Str(i) in r && r[Str(i)].transcription == alphabet[i]
            && (Str(i) in ts && ts[Str(i)].transcription == alphabet[i] ==> r[Str(i)] == ts[Str(i)])
    decreases |alphabet|
  {
    var n := |alphabet| - 1;
    var a := alphabet[..n];
    if i < n {
      StrInjective(i, n);
      MergedNames(ts, a, i);
    } else {
      StrFresh(n);
      if Str(n) in ts {
        MergedLeavesOthers(ts, a, Str(n));
      }
    }
  }

  /**
   * After the merge every cluster index names its letter, every other key is
   * untouched, nothing is dropped, and an entry that already held its letter is
   * kept whole.
   */
  lemma MergedSetsAlphabet(ts: map<string, Symbol>, alphabet: seq<string>)
    ensures var r := Merged(ts, alphabet);
            && r.Keys == ts.Keys + IndexKeys(|alphabet|)
            && (forall i :: 0 <= i < |alphabet| ==> Str(i) in r && r[Str(i)].transcription == alphabet[i])
            && (forall key :: key in ts && key !in IndexKeys(|alphabet|) ==> r[key] == ts[key])
            && (forall i :: 0 <= i < |alphabet| && Str(i) in ts && ts[Str(i)].transcription == alphabet[i] ==> r[Str(i)] == ts[Str(i)])
  {
    MergedKeys(ts, alphabet);
    forall key | key in ts && key !in IndexKeys(|alphabet|) ensures Merged(ts, alphabet)[key] == ts[key] {
      MergedLeavesOthers(ts, alphabet, key);
    }
    forall i | 0 <= i < |alphabet|
      ensures Str(i) in Merged(ts, alphabet) && Merged(ts, alphabet)[Str(i)].transcription == alphabet[i]
    {
      MergedNames(ts, alphabet, i);
    }
    forall i | 0 <= i < |alphabet| && Str(i) in ts && ts[Str(i)].transcription == alphabet[i]
      ensures Merged(ts, alphabet)[Str(i)] == ts[Str(i)]
    {
      MergedNames(ts, alphabet, i);
    }
  }

  /** An alphabet already in place is left alone. */
  lemma {:induction false} MergedFixed(ts: map<string, Symbol>, alphabet: seq<string>)
    requires forall i :: 0 <= i < |alphabet| ==> Str(i) in ts && ts[Str(i)].transcription == alphabet[i]
    ensures Merged(ts, alphabet) == ts
    decreases |alphabet|
  {
    if alphabet != [] {
      MergedFixed(ts, alphabet[..|alphabet| - 1]);
    }
  }

  /** Merging the same alphabet a second time changes nothing. */
  lemma MergeIdempotent(ts: map<string, Symbol>, alphabet: seq<string>)
    ensures Merged(Merged(ts, alphabet), alphabet) == Merged(ts, alphabet)
  {
    MergedSetsAlphabet(ts, alphabet);
    MergedFixed(Merged(ts, alphabet), alphabet);
  }

  // ---------------------------------------------------------------------------
  // Line image names
  // ---------------------------------------------------------------------------

  /** Python's comparison of strings: the first differing character decides, a proper prefix comes first. */
  predicate LexLess(a: string, b: string)
    decreases |a|
  {
    |b| > 0 && (|a| == 0 || a[0] < b[0] || (a[0] == b[0] && LexLess(a[1..], b[1..])))
  }

  /** The line index j among n lines, zero-padded to the width of n's magnitude. */
  function Padded(j: nat, n: nat): string
  {
    var om := Magnitude(n);
    var omj := Magnitude(j);
    if omj >= om then Str(j) else Zeros(om - omj) + Str(j)
  }

  function Zeros(k: nat): string
  {
    seq(k, _ => '0')
  }

  /** "name_<i>_<j>.jpg", the file name of line j of image i among n lines. */
  function LineName(i: nat, j: nat, n: nat): string
  {
    "name_" + Str(i) + "_" + Padded(j, n) + ".jpg"
  }

  lemma {:induction false} DigitsOfZero(k: nat)
    ensures Utils.Digits(0, k) == Zeros(k)
  {
    if k > 0 {
      DigitsOfZero(k - 1);
    }
  }

  /** Padding with leading zeros is printing with more digits. */
  lemma {:induction false} DigitsWiden(j: nat, w: nat, k: nat)
    requires j < Utils.Pow10(w)
    ensures Utils.Digits(j, w + k) == Zeros(k) + Utils.Digits(j, w)
    decreases w
  {
    if w == 0 {
      DigitsOfZero(k);
    } else {
      DigitsWiden(j / 10, w - 1, k);
      assert w + k - 1 == (w - 1) + k;
    }
  }

  /** Every index below n is padded to the same width, and the padding is exact. */
  lemma PaddedWidth(j: nat, n: nat)
    requires j < n
    ensures Padded(j, n) == Utils.Digits(j, Magnitude(n) + 1)
  {
    MagnitudeMonotone(j, n);
    MagnitudeBounds(j);
    DigitsWiden(j, Magnitude(j) + 1, Magnitude(n) - Magnitude(j));
  }

  lemma {:induction false} LexLessSnoc(a: string, b: string, x: char, y: char)
    requires |a| == |b|
    requires LexLess(a, b) || (a == b && x < y)
    ensures LexLess(a + [x], b + [y])
    decreases |a|
  {
    if |a| > 0 {
      assert (a + [x])[1..] == a[1..] + [x] && (b + [y])[1..] == b[1..] + [y];
      if a[0] == b[0] {
        LexLessSnoc(a[1..], b[1..], x, y);
      }
    }
  }

  /** For numbers of the same width, the printed order is the numeric order. */
  lemma {:induction false} DigitsOrder(m: nat, n: nat, w: nat)
    requires m < n < Utils.Pow10(w)
    ensures LexLess(Utils.Digits(m, w), Utils.Digits(n, w))
    decreases w
  {
    var dm, dn := Utils.Digits(m / 10, w - 1), Utils.Digits(n / 10, w - 1);
    if m / 10 < n / 10 {
      DigitsOrder(m / 10, n / 10, w - 1);
    } else {
      assert dm == dn;
    }
    LexLessSnoc(dm, dn, ('0' as int + m % 10) as char, ('0' as int + n % 10) as char);
  }

  lemma {:induction false} LexLessCommonPrefix(c: string, a: string, b: string)
    requires LexLess(a, b)
    ensures LexLess(c + a, c + b)
    decreases |c|
  {
    if |c| > 0 {
      assert (c + a)[0] == c[0] == (c + b)[0];
      assert (c + a)[1..] == c[1..] + a && (c + b)[1..] == c[1..] + b;
      LexLessCommonPrefix(c[1..], a, b);
    } else {
      assert c + a == a && c + b == b;
    }
  }

  lemma {:induction false} LexLessExtend(a: string, b: string, x: string, y: string)
    requires |a| == |b| && LexLess(a, b)
    ensures LexLess(a + x, b + y)
    decreases |a|
  {
    assert (a + x)[0] == a[0] && (b + y)[0] == b[0];
    if a[0] == b[0] {
      assert (a + x)[1..] == a[1..] + x && (b + y)[1..] == b[1..] + y;
      LexLessExtend(a[1..], b[1..], x, y);
    }
  }

  /**
   * The names of an image's lines sort in line order, which is what the few-shot
   * code relies on when it sorts the line files by name.
   */
  lemma LineNamesSortInOrder(i: nat, j1: nat, j2: nat, n: nat)
    requires j1 < j2 < n
    ensures LexLess(LineName(i, j1, n), LineName(i, j2, n))
    ensures |LineName(i, j1, n)| == |LineName(i, j2, n)|
  {
    var w := Magnitude(n) + 1;
    PaddedWidth(j1, n);
    PaddedWidth(j2, n);
    MagnitudeBounds(n);
    DigitsOrder(j1, j2, w);
    var pre := "name_" + Str(i) + "_";
    LexLessExtend(Padded(j1, n), Padded(j2, n), ".jpg", ".jpg");
    LexLessCommonPrefix(pre, Padded(j1, n) + ".jpg", Padded(j2, n) + ".jpg");
    assert LineName(i, j1, n) == pre + (Padded(j1, n) + ".jpg");
    assert LineName(i, j2, n) == pre + (Padded(j2, n) + ".jpg");
  }

  // ---------------------------------------------------------------------------
  // The training guard on the model path
  // ---------------------------------------------------------------------------

  /** Where the worker keeps a model's weights, relative to its own directory. */
  function ModelPath(model: string): string
  {
    "../user_models/" + model + ".pth"
  }

  /** The path a training run writes: a fresh key for a base model, the model itself otherwise. */
  function NewModelPath(model: string, newModel: string): string
  {
    if model in GpuDispatch.BaseModels then ModelPath(newModel) else ModelPath(model)
  }

  /** As written: a training run is refused whenever a file already exists at the path it writes. */
  predicate RefusesTrainingAsWritten(model: string, newModel: string, files: set<string>)
  {
    NewModelPath(model, newModel) in files
  }

  /**
   * Fine-tuning loads the weights at the model's own path, so a fine-tuned model can
   * only be trained further when its file exists; as written, that very file makes
   * the guard refuse, whatever the new key.
   */
  lemma RetrainingRefused(model: string, newModel: string, files: set<string>)
    requires model !in GpuDispatch.BaseModels && ModelPath(model) in files
    ensures RefusesTrainingAsWritten(model, newModel, files)
  {
  }

  /** The guard as intended: only a new model, trained from a base model, must not overwrite a file. */
  predicate RefusesTraining(model: string, newModel: string, files: set<string>)
  {
    model in GpuDispatch.BaseModels && ModelPath(newModel) in files
  }

  /**
   * The corrected guard still keeps a new model from overwriting an existing file,
   * and lets a fine-tuned model be trained further in place.
   */
  lemma TrainingGuardIntended(model: string, newModel: string, files: set<string>)
    ensures model in GpuDispatch.BaseModels ==>
              (RefusesTraining(model, newModel, files) <==> RefusesTrainingAsWritten(model, newModel, files))
    ensures model !in GpuDispatch.BaseModels ==>
              !RefusesTraining(model, newModel, files) && NewModelPath(model, newModel) == ModelPath(model)
  {
  }

  // ---------------------------------------------------------------------------
  // main
  // ---------------------------------------------------------------------------

  /** Why a run raised. */
  datatype Raise =
    | InvalidCode        // --code names neither module
    | NoGpu              // training without a CUDA device with enough free memory
    | BadParameters      // a parameter the module reads is missing (KeyError) or null
    | ModelExists        // the training would write over an existing model file
    | EmptyTrainingText  // no symbol made it into train.txt
    | ModuleFailed       // the module returned an error message
    | NoLedger           // the lookup table has no transmission ledger (KeyError)

  /** The staged files, decoded. */
  datatype Inputs = Inputs(
    documents: Documents, transcriptions: map<string, Symbol>, generated: string,
    params: ExecParams, table: LookupTable, flag: map<string, int>)

  /**
   * What recognition hands back: the module's error and fixed alphabet, the symbol
   * boxes per image its predictions convert to, and the generated transcription.
   */
  datatype Recognised = Recognised(error: Option<string>, alphabet: seq<string>, symbols: Documents, generated: string)

  /** What training hands back: the module's error and the lookup table with its CER logs. */
  datatype Trained = Trained(error: Option<string>, table: LookupTable)

  /** The contents of the outputs a run wrote; the last two are None when it raised before writing them. */
  datatype Outputs = Outputs(
    documents: Documents, transcriptions: map<string, Symbol>, generated: string,
    table: Option<LookupTable>, flag: Option<map<string, int>>)

  /** A run: the error it raised, if any, and its outputs, if it wrote any. */
  datatype Run = Run(raised: Option<Raise>, written: Option<Outputs>)

  /** The parameters each module reads from execution_parameters.json. */
  function Needs(k: Kind): set<Param>
  {
    match k
    case Recognition => {NumberOfShots, ThresholdFewShots, ReadSpaces, SelectedAlphabet, SelectedModel}
    case Training => {UserValidation, SelectedAlphabet, Epochs, NumberOfShots, ThresholdFewShots, SelectedModel}
  }

  /** The module finds every parameter it reads; training also needs a non-null "new_model_key". */
  predicate Readable(p: ExecParams, k: Kind)
  {
    Needs(k) <= p.kept.Keys && (k == Training ==> p.newModelKey.Some?)
  }

  /** The model is a string, as every dispatcher writes it. */
  predicate WellTyped(p: ExecParams)
  {
    SelectedModel in p.kept ==> p.kept[SelectedModel].Str?
  }

  /** The test's documents: every image emptied, then given the symbol boxes predicted for it. */
  function Predicted(regular: Documents, symbols: Documents): Documents
  {
    map key | key in regular :: if key in symbols then symbols[key] else []
  }

  /** The error a run raises before its module's outputs are used, if any, in the order main meets them. */
  function Refusal(k: Kind, gpuReady: bool, models: set<string>, trainingTextEmpty: bool,
                   inputs: Inputs, rec: Recognised, tr: Trained): Option<Raise>
    requires WellTyped(inputs.params)
  {
    var p := inputs.params;
    if k == Training && !gpuReady then Some(NoGpu)
    else if !Readable(p, k) then Some(BadParameters)
    else if k == Training && RefusesTraining(p.kept[SelectedModel].s, p.newModelKey.value, models) then Some(ModelExists)
    else if k == Training && trainingTextEmpty then Some(EmptyTrainingText)
    else if (k == Recognition && rec.error.Some?) || (k == Training && tr.error.Some?) then Some(ModuleFailed)
    else None
  }

  /**
   * One run of the worker: `gpuReady` is whether CUDA is available with more free
   * memory than the module's minimum, `models` the files present under user_models,
   * `trainingTextEmpty` whether no symbol passed into train.txt.
   */
  function Work(code: string, gpuReady: bool, models: set<string>, trainingTextEmpty: bool,
                inputs: Inputs, rec: Recognised, tr: Trained): (r: Run)
    requires WellTyped(inputs.params)
    ensures TargetCode(code).None? ==> r == Run(Some(InvalidCode), None)
    ensures r.raised.None? <==> r.written.Some? && r.written.value.table.Some?
    ensures r.written.Some? && r.raised.Some? ==> r.raised == Some(NoLedger) && r.written.value.flag.None?
    ensures r.written.Some? ==> r.written.value.documents.Keys == inputs.documents.Keys
    ensures r.raised.None? ==> r.written.value.flag == Some(inputs.flag[SuccessKey := 1])
  {
    match TargetCode(code)
    case None => Run(Some(InvalidCode), None)
    case Some(k) =>
      var refusal := Refusal(k, gpuReady, models, trainingTextEmpty, inputs, rec, tr);
      if refusal.Some? then Run(refusal, None)
      else
        var regular := RegularOf(inputs.documents);
        var docs := Restored(if k == Recognition then Predicted(regular, rec.symbols) else regular,
                             FrozenOf(inputs.documents));
        var ts := if k == Recognition then Merged(inputs.transcriptions, rec.alphabet) else inputs.transcriptions;
        var generated := if k == Recognition then rec.generated else inputs.generated;
        var table := if k == Recognition then inputs.table else tr.table;
        match table.transmission
        case None => Run(Some(NoLedger), Some(Outputs(docs, ts, generated, None, None)))
        case Some(t) =>
          Run(None, Some(Outputs(docs, ts, generated, Some(table.(transmission := Some(MarkFinished(t, k)))),
                                 Some(inputs.flag[SuccessKey := 1]))))
  }

  /**
   * main: checks the code, sets the frozen boxes aside, runs the module, puts the
   * frozen boxes back and writes the outputs only when nothing went wrong.
   */
  method RunWorker(code: string, gpuReady: bool, models: set<string>, trainingTextEmpty: bool,
                   inputs: Inputs, rec: Recognised, tr: Trained) returns (r: Run)
    requires WellTyped(inputs.params)
    ensures r == Work(code, gpuReady, models, trainingTextEmpty, inputs, rec, tr)
  {
    var target := TargetCode(code);
    if target.None? {
      return Run(Some(InvalidCode), None);
    }
    var k := target.value;
    var regular, frozen := PartitionFrozen(inputs.documents);
    var refusal := Refusal(k, gpuReady, models, trainingTextEmpty, inputs, rec, tr);
    if refusal.Some? {
      return Run(refusal, None);
    }
    var docs, ts, generated, table := regular, inputs.transcriptions, inputs.generated, inputs.table;
    if k == Recognition {
      ts := MergeAlphabet(ts, rec.alphabet);
      docs := Predicted(regular, rec.symbols);
      generated := rec.generated;
    } else {
      table := tr.table;
    }
    docs := RestoreFrozen(docs, frozen);
    if table.transmission.None? {
      return Run(Some(NoLedger), Some(Outputs(docs, ts, generated, None, None)));
    }
    var ledger := MarkFinished(table.transmission.value, k);
    var flag := inputs.flag[SuccessKey := 1];
    r := Run(None, Some(Outputs(docs, ts, generated, Some(table.(transmission := Some(ledger))), Some(flag))));
  }

  /** The success flag file a run leaves: its outputs' flag when it wrote one, the staged flag otherwise. */
  function FlagAfter(flag: map<string, int>, r: Run): map<string, int>
  {
    if r.written.Some? && r.written.value.flag.Some? then r.written.value.flag.value else flag
  }

  /**
   * A run that succeeds hands the dispatcher a ledger that reports the executed kind
   * finished, so adopting it closes the entry, and sets the success flag, keeping the
   * flag file's other keys.
   */
  lemma SuccessIsAdopted(code: string, k: Kind, gpuReady: bool, models: set<string>, trainingTextEmpty: bool,
                         inputs: Inputs, rec: Recognised, tr: Trained)
    requires TargetCode(code) == Some(k) && WellTyped(inputs.params)
    ensures var r := Work(code, gpuReady, models, trainingTextEmpty, inputs, rec, tr);
            r.raised.None? ==>
              var t := r.written.value.table.value;
              var adopted := GpuDispatch.Adopted(Table(t), k);
              && t.transmission.value.Get(k).finished == 1
              && adopted.Some? && Idle(adopted.value.Get(k))
              && FlagAfter(inputs.flag, r)[SuccessKey] == 1
              && (forall key :: key in inputs.flag && key != SuccessKey ==> FlagAfter(inputs.flag, r)[key] == inputs.flag[key])
  {
  }

  /**
   * The dispatcher reads the run's outcome off the flag alone: with the flag reset
   * before the run, a run that raised reads as a remote failure (502), and one that
   * succeeded never does.
   */
  lemma DispatcherSeesOutcome(code: string, k: Kind, gpuReady: bool, models: set<string>, trainingTextEmpty: bool,
                              inputs: Inputs, rec: Recognised, tr: Trained,
                              remote: Dir, session: string, p: ExecParams, hasRegistry: bool)
    requires TargetCode(code) == Some(k) && WellTyped(inputs.params)
    requires SuccessKey in inputs.flag ==> inputs.flag[SuccessKey] != 1
    requires var r := Work(code, gpuReady, models, trainingTextEmpty, inputs, rec, tr);
             StagedName(session, FlagFile) in remote && remote[StagedName(session, FlagFile)] == FlagFileOf(FlagAfter(inputs.flag, r))
    ensures var exit := GpuDispatch.CollectExit(remote, session, k, p, false, hasRegistry);
            var r := Work(code, gpuReady, models, trainingTextEmpty, inputs, rec, tr);
            && (r.raised.Some? ==> exit == GpuDispatch.RemoteFailed)
            && (r.raised.None? ==> exit != GpuDispatch.RemoteFailed && exit != GpuDispatch.NoFlag)
  {
  }

  /** A dispatcher only ever stores a string model. */
  lemma DispatchedParametersWellTyped(k: Kind, fe: PhpValues.Payload, images: seq<string>, session: string)
    ensures WellTyped(GpuDispatch.ParamsFor(GpuDispatch.Rebuilt(k, fe), images, session))
  {
  }

  /**
   * The module finds its parameters exactly when every one it reads passed the
   * dispatcher's check: a value the dispatcher dropped as out of range makes the run
   * raise, and so the dispatch end as a remote failure.
   */
  lemma DroppedParameterFailsRun(k: Kind, fe: PhpValues.Payload, images: seq<string>, session: string)
    ensures Readable(GpuDispatch.ParamsFor(GpuDispatch.Rebuilt(k, fe), images, session), k)
            <==> forall q :: q in Needs(k) ==> GpuDispatch.Admissible(q, GpuDispatch.Sent(fe, q))
  {
    var kept := GpuDispatch.Rebuilt(k, fe);
    forall q | q in Needs(k)
      ensures q in kept <==> GpuDispatch.Admissible(q, GpuDispatch.Sent(fe, q))
    {
      KeptWhenAdmissible(k, fe, q);
    }
  }

  /** A parameter a module reads is rebuilt exactly when it passes its check. */
  lemma KeptWhenAdmissible(k: Kind, fe: PhpValues.Payload, q: Param)
    requires q in Needs(k)
    ensures q in GpuDispatch.Rebuilt(k, fe) <==> GpuDispatch.Admissible(q, GpuDispatch.Sent(fe, q))
  {
    assert q in GpuDispatch.AllParams && GpuDispatch.Applies(k, q);
  }

  /**
   * Training refuses, writing nothing: without a usable GPU, when the model it would
   * write is new and its file exists, or when there is no training text.
   */
  lemma TrainingGuards(code: string, gpuReady: bool, models: set<string>, trainingTextEmpty: bool,
                       inputs: Inputs, rec: Recognised, tr: Trained)
    requires TargetCode(code) == Some(Training) && WellTyped(inputs.params)
    ensures var r := Work(code, gpuReady, models, trainingTextEmpty, inputs, rec, tr);
            var p := inputs.params;
            && (!gpuReady ==> r == Run(Some(NoGpu), None))
            && (gpuReady && !Readable(p, Training) ==> r == Run(Some(BadParameters), None))
            && (gpuReady && Readable(p, Training) && RefusesTraining(p.kept[SelectedModel].s, p.newModelKey.value, models) ==>
                  r == Run(Some(ModelExists), None))
            && (r.raised.None? ==> gpuReady && !trainingTextEmpty && tr.error.None?)
  {
  }

  /** A module that reports an error leaves every output unwritten and the flag as it was. */
  lemma ModuleErrorWritesNothing(code: string, gpuReady: bool, models: set<string>, trainingTextEmpty: bool,
                                 inputs: Inputs, rec: Recognised, tr: Trained)
    requires WellTyped(inputs.params)
    requires (TargetCode(code) == Some(Recognition) && rec.error.Some?) || (TargetCode(code) == Some(Training) && tr.error.Some?)
    ensures var r := Work(code, gpuReady, models, trainingTextEmpty, inputs, rec, tr);
            r.raised.Some? && r.written.None? && FlagAfter(inputs.flag, r) == inputs.flag
  {
  }

  /**
   * Every written image gets back its frozen boxes, in order, after the boxes of the
   * run: the predicted symbols for recognition, the untouched regular boxes for
   * training, which therefore writes each image's boxes back as a permutation.
   */
  lemma RunRestoresFrozen(code: string, k: Kind, gpuReady: bool, models: set<string>, trainingTextEmpty: bool,
                          inputs: Inputs, rec: Recognised, tr: Trained, key: string)
    requires TargetCode(code) == Some(k) && WellTyped(inputs.params) && key in inputs.documents
    ensures var r := Work(code, gpuReady, models, trainingTextEmpty, inputs, rec, tr);
            var bs := inputs.documents[key];
            r.written.Some? ==>
              && r.written.value.documents[key]
                 == (if k == Recognition then (if key in rec.symbols then rec.symbols[key] else []) else Regular(bs)) + Frozen(bs)
              && (k == Training ==> multiset(r.written.value.documents[key]) == multiset(bs))
  {
    PartitionLosesNothing(inputs.documents[key]);
  }
}
