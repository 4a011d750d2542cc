/**
 * The reconciliation sweep (sync_files_from_GPU_server in web/index.php): on a load
 * of the project view it visits every save, backfills an empty image mapping,
 * creates a missing lookup table, and, for each ledger entry still awaiting results,
 * asks the GPU server whether the job has finished; a finished job's results are
 * adopted, its entry closed, and a finished training's model registered.
 *
 * SSH results are inputs: a receive succeeds exactly when the worker left the file in
 * the temp folder. The identifiers generate_id draws for the temporary copies are an
 * oracle (a function of the save and the kind).
 */
module Sweep {
  import opened Wrappers
  import opened Ledger
  import opened SaveFiles
  import opened Site
  import Utils
  import GpuDispatch

  /** The project sub-directory that is not a save. */
  const Thumbnails: string := "thumbnails"

  /** The files the sweep asks the GPU server for, in order. */
  const Received: seq<string> := [BoxesFile, TranscriptionFile, LookupFile, GeneratedFile]

  /** pathinfo's "filename" of a ".json" name. */
  function Base(name: string): string
  {
    if |name| >= 5 then name[..|name| - 5] else name
  }

  /** The worker's output for a received file: "<session>-<base><suffix>.json". */
  function RemoteName(session: string, name: string): string
  {
    OutputName(session, Base(name))
  }

  /** The sweep asks for exactly the files the worker writes and the dispatcher reads. */
  lemma SweepReadsWorkerOutputs(session: string)
    ensures RemoteName(session, BoxesFile) == GpuDispatch.BoxesOutput(session)
    ensures RemoteName(session, TranscriptionFile) == GpuDispatch.TranscriptionOutput(session)
    ensures RemoteName(session, LookupFile) == GpuDispatch.LedgerOutput(session)
    ensures RemoteName(session, GeneratedFile) == GpuDispatch.GeneratedOutput(session)
  {
    assert Base(BoxesFile) == "bounding_boxes";
    assert Base(TranscriptionFile) == "transcription";
    assert Base(LookupFile) == "lookup_table";
    assert Base(GeneratedFile) == "generated_transcription";
  }

  // ---------------------------------------------------------------------------
  // File operations on a save directory
  // ---------------------------------------------------------------------------

  /** ssh2_scp_recv: the local copy appears only when the remote file exists. */
  function Receive(dir: Dir, remote: Dir, src: string, dst: string): Dir
  {
    if src in remote then dir[dst := remote[src]] else dir
  }

  /** The receive loop over names, each into "<tmp>-<name>". */
  function ReceiveEach(dir: Dir, remote: Dir, session: string, tmp: string, names: seq<string>): Dir
    decreases |names|
  {
    if names == [] then dir
    else
      var last := names[|names| - 1];
      Receive(ReceiveEach(dir, remote, session, tmp, names[..|names| - 1]), remote, RemoteName(session, last), StagedName(tmp, last))
  }

  /** rename(): the file moves when it exists, and nothing happens otherwise. */
  function Rename(dir: Dir, from: string, to: string): Dir
  {
    if from in dir then (dir - {from})[to := dir[from]] else dir
  }

  /** The rename loop: every received name but lookup_table.json moves from "<tmp>-<name>" to name. */
  function RenameEach(dir: Dir, tmp: string, names: seq<string>): Dir
    decreases |names|
  {
    if names == [] then dir
    else
      var last := names[|names| - 1];
      var init := RenameEach(dir, tmp, names[..|names| - 1]);
      if last == LookupFile then init else Rename(init, StagedName(tmp, last), last)
  }

  /** unlink(): removing a missing file changes nothing. */
  function Unlink(dir: Dir, name: string): Dir
  {
    dir - {name}
  }

  /** The image files of a directory, as glob("*.{jpg,png,jpeg}") lists them. */
  function ImagesOf(dir: Dir): set<string>
  {
    set f | f in dir && IsImageName(f)
  }

  /** The project's names of the given images. */
  function KnownNames(images: set<string>, pm: map<string, string>): map<string, string>
  {
    map img | img in images && img in pm :: pm[img]
  }

  // ---------------------------------------------------------------------------
  // One visit of a save, as a function of what it finds
  // ---------------------------------------------------------------------------

  /** A received lookup table reports the kind finished (finished === 1); anything else reads as null. */
  predicate ReportsFinished(f: File, k: Kind)
  {
    GpuDispatch.RemoteLedger(f).Some? && GpuDispatch.RemoteLedger(f).value.Get(k).finished == 1
  }

  predicate FinishedIn(dir: Dir, name: string, k: Kind)
  {
    name in dir && ReportsFinished(dir[name], k)
  }

  /** The local entry of kind k after the sweep closed it. */
  function Closed(t: LookupTable, k: Kind): LookupTable
    requires t.transmission.Some?
  {
    t.(transmission := Some(CloseEntry(t.transmission.value, k)))
  }

  /** A save's table after the backfill of an empty image mapping from the project's mapping. */
  function Backfilled(t: LookupTable, images: set<string>, pm: map<string, string>): LookupTable
  {
    if |t.imageMapping| == 0 then t.(imageMapping := KnownNames(images, pm)) else t
  }

  /** The lookup table create_new_lookup_table writes for a save that lacks one. */
  function Recreated(projectId: string, projectName: string, save: string, images: set<string>, pm: map<string, string>): LookupTable
  {
    LookupTable(projectId, save, projectName, save, KnownNames(images, pm), Some(DefaultTransmission), None)
  }

  datatype Step = Step(dir: Dir, table: LookupTable, lines: seq<LogLine>)

  /**
   * The recognition attempt: pull the four outputs as temporary copies, and when the
   * pulled ledger reports the job finished move the three result files into place and
   * close the entry. The temporary ledger is removed in every case.
   */
  function RecognitionStep(d: Dir, t: LookupTable, remote: Dir, tmp: string): Step
    requires t.transmission.Some?
  {
    var e := t.transmission.value.recognition;
    if !Awaiting(e) then Step(d, t, [])
    else
      var pulled := ReceiveEach(d, remote, e.sessionId, tmp, Received);
      var ledger := StagedName(tmp, LookupFile);
      if FinishedIn(pulled, ledger, Recognition) then
        var closed := Closed(t, Recognition);
        Step(Unlink(RenameEach(pulled, tmp, Received)[LookupFile := Table(closed)], ledger), closed, [RecognitionTransferred])
      else Step(Unlink(pulled, ledger), t, [])
  }

  datatype TrainStep = TrainStep(dir: Dir, lines: seq<LogLine>, registry: Registry)

  /** The CER text a received table carries, logged as it is. */
  function CerOf(got: LookupTable): seq<LogLine>
  {
    if got.cer.Some? then [CerReport(got.cer.value)] else []
  }

  /**
   * The training attempt: pull only the ledger; when it arrives and reports the job
   * finished, close the entry and register the model unless its key is known. The
   * log line says which of the two happened.
   */
  function TrainingStep(d: Dir, t: LookupTable, remote: Dir, tmp: string, reg: Registry): TrainStep
    requires t.transmission.Some?
  {
    var e := t.transmission.value.training;
    var src := RemoteName(e.sessionId, LookupFile);
    var ledger := StagedName(tmp, LookupFile);
    if !Awaiting(e) || src !in remote then TrainStep(d, [], reg)
    else if !ReportsFinished(remote[src], Training) then TrainStep(Unlink(d[ledger := remote[src]], ledger), [], reg)
    else
      var got := remote[src].table;
      var pe := got.transmission.value.training;
      var key := ArrayKey(pe.modelKey);
      TrainStep(Unlink(d[ledger := remote[src]][LookupFile := Table(Closed(t, Training))], ledger),
               CerOf(got) + [if key in reg then TrainingFinished else ModelTransferred],
               RegisterIfAbsent(reg, key, pe.modelName))
  }

  datatype Outcome = Outcome(dir: Dir, lines: seq<LogLine>, registry: Registry)

  /**
   * One save's visit: None when its lookup table is not a decodable table (the page
   * dies on a TypeError at the image-mapping check).
   */
  function Visit(dir: Dir, remote: Dir, reg: Registry, pm: map<string, string>, projectId: string,
                 projectName: string, save: string, tmpRec: string, tmpTrain: string): Option<Outcome>
  {
    if LookupFile !in dir then
      Some(Outcome(dir[LookupFile := Table(Recreated(projectId, projectName, save, ImagesOf(dir), pm))], [], reg))
    else if !dir[LookupFile].Table? then None
    else
      var t := Backfilled(dir[LookupFile].table, ImagesOf(dir), pm);
      var d := dir[LookupFile := Table(t)];
      if t.transmission.None? then Some(Outcome(d, [], reg))
      else
        var r := RecognitionStep(d, t, remote, tmpRec);
        var tr := TrainingStep(r.dir, r.table, remote, tmpTrain, reg);
        Some(Outcome(tr.dir, r.lines + tr.lines, tr.registry))
  }

  // ---------------------------------------------------------------------------
  // The whole sweep, as a function of the project's state
  // ---------------------------------------------------------------------------

  /** What the sweep can change: the save directories, their logs and the model registry. */
  datatype World = World(saves: map<string, Dir>, logs: map<string, seq<LogLine>>, registry: Registry)

  function LogIn(logs: map<string, seq<LogLine>>, save: string): seq<LogLine>
  {
    if save in logs then logs[save] else []
  }

  /** A visit's result written back; the log file is only written when a line is added. */
  function Apply(w: World, save: string, o: Outcome): World
  {
    World(w.saves[save := o.dir],
          if o.lines == [] then w.logs else w.logs[save := LogIn(w.logs, save) + o.lines],
          o.registry)
  }

  /** The sweep over a directory listing; the flag says whether a visit made the page die. */
  function SweepAll(w: World, remote: Dir, pm: map<string, string>, projectId: string, projectName: string,
                    tmpId: (string, Kind) -> string, names: seq<string>): (World, bool)
    decreases |names|
  {
    if names == [] then (w, false)
    else
      var save := names[0];
      if save == Thumbnails || save !in w.saves then SweepAll(w, remote, pm, projectId, projectName, tmpId, names[1..])
      else match Visit(w.saves[save], remote, w.registry, pm, projectId, projectName, save,
                       tmpId(save, Recognition), tmpId(save, Training))
        case None => (w, true)
        case Some(o) => SweepAll(Apply(w, save, o), remote, pm, projectId, projectName, tmpId, names[1..])
  }

  // ---------------------------------------------------------------------------
  // What one visit does
  // ---------------------------------------------------------------------------

  /** The receive loop asks for the four outputs one after the other. */
  lemma ReceiveChain(d: Dir, remote: Dir, session: string, tmp: string)
    ensures ReceiveEach(d, remote, session, tmp, Received)
            == Receive(Receive(Receive(Receive(d, remote, RemoteName(session, BoxesFile), StagedName(tmp, BoxesFile)),
                                       remote, RemoteName(session, TranscriptionFile), StagedName(tmp, TranscriptionFile)),
                               remote, RemoteName(session, LookupFile), StagedName(tmp, LookupFile)),
                       remote, RemoteName(session, GeneratedFile), StagedName(tmp, GeneratedFile))
  {
    var l1, l2, l3 := [BoxesFile], [BoxesFile, TranscriptionFile], [BoxesFile, TranscriptionFile, LookupFile];
    assert l1[..0] == [] && l2[..1] == l1 && l3[..2] == l2 && Received[..3] == l3;
    var r1 := Receive(d, remote, RemoteName(session, BoxesFile), StagedName(tmp, BoxesFile));
    assert ReceiveEach(d, remote, session, tmp, l1) == r1;
    var r2 := Receive(r1, remote, RemoteName(session, TranscriptionFile), StagedName(tmp, TranscriptionFile));
    assert ReceiveEach(d, remote, session, tmp, l2) == r2;
    var r3 := Receive(r2, remote, RemoteName(session, LookupFile), StagedName(tmp, LookupFile));
    assert ReceiveEach(d, remote, session, tmp, l3) == r3;
  }

  /** The rename loop moves the three result copies, the ledger excepted. */
  lemma RenameChain(d: Dir, tmp: string)
    ensures RenameEach(d, tmp, Received)
            == Rename(Rename(Rename(d, StagedName(tmp, BoxesFile), BoxesFile),
                             StagedName(tmp, TranscriptionFile), TranscriptionFile),
                      StagedName(tmp, GeneratedFile), GeneratedFile)
  {
    var l1, l2, l3 := [BoxesFile], [BoxesFile, TranscriptionFile], [BoxesFile, TranscriptionFile, LookupFile];
    assert l1[..0] == [] && l2[..1] == l1 && l3[..2] == l2 && Received[..3] == l3;
    var r1 := Rename(d, StagedName(tmp, BoxesFile), BoxesFile);
    assert RenameEach(d, tmp, l1) == r1;
    var r2 := Rename(r1, StagedName(tmp, TranscriptionFile), TranscriptionFile);
    assert RenameEach(d, tmp, l2) == r2;
    assert RenameEach(d, tmp, l3) == r2;
  }

  /** The four protocol files of a save. */
  predicate ProtocolFile(n: string)
  {
    n == BoxesFile || n == TranscriptionFile || n == LookupFile || n == GeneratedFile
  }

  /** A temp identifier as generate_id makes it: at least 14 + 1 + 1 + 19 characters. */
  predicate IdShaped(tmp: string)
  {
    |tmp| >= 35
  }

  /** A temp identifier none of whose copies is already in the directory. */
  predicate FreshTmp(dir: Dir, tmp: string)
  {
    IdShaped(tmp)
    && StagedName(tmp, BoxesFile) !in dir && StagedName(tmp, TranscriptionFile) !in dir
    && StagedName(tmp, LookupFile) !in dir && StagedName(tmp, GeneratedFile) !in dir
  }

  /** A temporary copy is never one of the protocol files. */
  lemma TmpNotProtocol(tmp: string, n: string)
    requires IdShaped(tmp)
    ensures !ProtocolFile(StagedName(tmp, n))
  {
    StagedNameSplits(tmp, n);
  }

  /** Neither a protocol file nor a temporary copy of one is an image. */
  lemma TmpNotImage(tmp: string, n: string)
    requires ProtocolFile(n)
    ensures !IsImageName(StagedName(tmp, n)) && !IsImageName(n)
  {
    StagedNameSplits(tmp, n);
    var x := StagedName(tmp, n);
    assert n[|n| - 5..] == ".json";
    assert x[|x| - 5..] == x[|tmp| + 1..][|n| - 5..];
    assert x[|x| - 4..] == x[|x| - 5..][1..];
    assert n[|n| - 4..] == n[|n| - 5..][1..];
  }

  predicate SameFile(d1: Dir, d2: Dir, n: string)
  {
    (n in d1 <==> n in d2) && (n in d1 ==> d1[n] == d2[n])
  }

  /** Two directories agree on the four protocol files. */
  predicate SameProtocolFiles(d1: Dir, d2: Dir)
  {
    SameFile(d1, d2, BoxesFile) && SameFile(d1, d2, TranscriptionFile)
    && SameFile(d1, d2, LookupFile) && SameFile(d1, d2, GeneratedFile)
  }

  /** The job of kind k of the given session has finished on the GPU server. */
  predicate DoneRemotely(remote: Dir, session: string, k: Kind)
  {
    RemoteName(session, LookupFile) in remote && ReportsFinished(remote[RemoteName(session, LookupFile)], k)
  }

  /** After the receive loop, the temporary copy of a protocol file is the worker's output, if it wrote one. */
  lemma PulledFile(d: Dir, remote: Dir, session: string, tmp: string, n: string)
    requires FreshTmp(d, tmp) && ProtocolFile(n)
    ensures var p := ReceiveEach(d, remote, session, tmp, Received);
            (StagedName(tmp, n) in p <==> RemoteName(session, n) in remote)
            && (RemoteName(session, n) in remote ==> p[StagedName(tmp, n)] == remote[RemoteName(session, n)])
            && SameFile(p, d, n)
  {
    ReceiveChain(d, remote, session, tmp);
    StagedNameInjectiveOn(tmp);
    TmpNotProtocol(tmp, BoxesFile);
    TmpNotProtocol(tmp, TranscriptionFile);
    TmpNotProtocol(tmp, LookupFile);
    TmpNotProtocol(tmp, GeneratedFile);
  }

  /**
   * After the rename loop a result file holds its temporary copy if there was one and
   * is as it was otherwise; the copy is gone, and the ledger and its copy are untouched.
   */
  lemma RenamedFile(p: Dir, tmp: string, n: string)
    requires IdShaped(tmp) && (n == BoxesFile || n == TranscriptionFile || n == GeneratedFile)
    ensures var r := RenameEach(p, tmp, Received);
            (StagedName(tmp, n) in p ==> n in r && r[n] == p[StagedName(tmp, n)])
            && (StagedName(tmp, n) !in p ==> SameFile(r, p, n))
            && StagedName(tmp, n) !in r
            && SameFile(r, p, LookupFile) && SameFile(r, p, StagedName(tmp, LookupFile))
  {
    RenameChain(p, tmp);
    StagedNameInjectiveOn(tmp);
    TmpNotProtocol(tmp, BoxesFile);
    TmpNotProtocol(tmp, TranscriptionFile);
    TmpNotProtocol(tmp, LookupFile);
    TmpNotProtocol(tmp, GeneratedFile);
    var r1 := Rename(p, StagedName(tmp, BoxesFile), BoxesFile);
    var r2 := Rename(r1, StagedName(tmp, TranscriptionFile), TranscriptionFile);
    var r3 := Rename(r2, StagedName(tmp, GeneratedFile), GeneratedFile);
    if n == BoxesFile {
      assert SameFile(r1, r2, n) && SameFile(r2, r3, n);
      assert SameFile(r1, r2, StagedName(tmp, n)) && SameFile(r2, r3, StagedName(tmp, n));
    } else if n == TranscriptionFile {
      assert SameFile(p, r1, n) && SameFile(r2, r3, n);
      assert SameFile(p, r1, StagedName(tmp, n)) && SameFile(r2, r3, StagedName(tmp, n));
    } else {
      assert SameFile(p, r1, n) && SameFile(r1, r2, n);
      assert SameFile(p, r1, StagedName(tmp, n)) && SameFile(r1, r2, StagedName(tmp, n));
    }
  }

  /**
   * When the worker reports the recognition finished, the entry is closed, exactly one
   * completion line is logged, every result the worker wrote replaces the canonical
   * file, a result it did not write leaves the canonical file as it was, and no
   * temporary copy of the file or of the ledger remains.
   */
  lemma RecognitionAdopts(d: Dir, t: LookupTable, remote: Dir, tmp: string, n: string)
    requires t.transmission.Some? && Awaiting(t.transmission.value.recognition)
    requires FreshTmp(d, tmp) && (n == BoxesFile || n == TranscriptionFile || n == GeneratedFile)
    requires DoneRemotely(remote, t.transmission.value.recognition.sessionId, Recognition)
    ensures var r := RecognitionStep(d, t, remote, tmp);
            var src := RemoteName(t.transmission.value.recognition.sessionId, n);
            r.table == Closed(t, Recognition) && r.lines == [RecognitionTransferred]
            && LookupFile in r.dir && r.dir[LookupFile] == Table(Closed(t, Recognition))
            && (src in remote ==> n in r.dir && r.dir[n] == remote[src])
            && (src !in remote ==> SameFile(r.dir, d, n))
            && StagedName(tmp, n) !in r.dir && StagedName(tmp, LookupFile) !in r.dir
  {
    var session := t.transmission.value.recognition.sessionId;
    var pulled := ReceiveEach(d, remote, session, tmp, Received);
    PulledFile(d, remote, session, tmp, LookupFile);
    PulledFile(d, remote, session, tmp, n);
    assert FinishedIn(pulled, StagedName(tmp, LookupFile), Recognition);
    RenamedFile(pulled, tmp, n);
    TmpNotProtocol(tmp, n);
    TmpNotProtocol(tmp, LookupFile);
  }

  /** The four temporary names of one identifier are distinct. */
  lemma StagedNameInjectiveOn(tmp: string)
    ensures StagedName(tmp, BoxesFile) != StagedName(tmp, TranscriptionFile)
    ensures StagedName(tmp, BoxesFile) != StagedName(tmp, LookupFile)
    ensures StagedName(tmp, BoxesFile) != StagedName(tmp, GeneratedFile)
    ensures StagedName(tmp, TranscriptionFile) != StagedName(tmp, LookupFile)
    ensures StagedName(tmp, TranscriptionFile) != StagedName(tmp, GeneratedFile)
    ensures StagedName(tmp, LookupFile) != StagedName(tmp, GeneratedFile)
  {
    GpuDispatch.StagedNameInjective(tmp, BoxesFile, TranscriptionFile);
    GpuDispatch.StagedNameInjective(tmp, BoxesFile, LookupFile);
    GpuDispatch.StagedNameInjective(tmp, BoxesFile, GeneratedFile);
    GpuDispatch.StagedNameInjective(tmp, TranscriptionFile, LookupFile);
    GpuDispatch.StagedNameInjective(tmp, TranscriptionFile, GeneratedFile);
    GpuDispatch.StagedNameInjective(tmp, LookupFile, GeneratedFile);
  }

  /**
   * While the worker has not reported the recognition finished, the entry, the log and
   * the protocol files stay as they were, the temporary ledger is removed, and the
   * temporary copy of every other output the worker wrote is left behind.
   */
  lemma RecognitionWaits(d: Dir, t: LookupTable, remote: Dir, tmp: string, n: string)
    requires t.transmission.Some? && Awaiting(t.transmission.value.recognition)
    requires FreshTmp(d, tmp) && (n == BoxesFile || n == TranscriptionFile || n == GeneratedFile)
    requires !DoneRemotely(remote, t.transmission.value.recognition.sessionId, Recognition)
    ensures var r := RecognitionStep(d, t, remote, tmp);
            var src := RemoteName(t.transmission.value.recognition.sessionId, n);
            r.table == t && r.lines == [] && SameProtocolFiles(r.dir, d)
            && (StagedName(tmp, n) in r.dir <==> src in remote)
            && (src in remote ==> r.dir[StagedName(tmp, n)] == remote[src])
            && StagedName(tmp, LookupFile) !in r.dir
  {
    var session := t.transmission.value.recognition.sessionId;
    PulledFile(d, remote, session, tmp, BoxesFile);
    PulledFile(d, remote, session, tmp, TranscriptionFile);
    PulledFile(d, remote, session, tmp, LookupFile);
    PulledFile(d, remote, session, tmp, GeneratedFile);
    StagedNameInjectiveOn(tmp);
    TmpNotProtocol(tmp, BoxesFile);
    TmpNotProtocol(tmp, TranscriptionFile);
    TmpNotProtocol(tmp, LookupFile);
    TmpNotProtocol(tmp, GeneratedFile);
  }

  /**
   * When the worker reports the training finished, the entry is closed with its model
   * fields emptied, the model is registered unless its key is known, no registered name
   * changes, and the log line says which of the two happened, after the CER text.
   */
  lemma TrainingCloses(d: Dir, t: LookupTable, remote: Dir, tmp: string, reg: Registry)
    requires t.transmission.Some? && Awaiting(t.transmission.value.training) && IdShaped(tmp)
    requires DoneRemotely(remote, t.transmission.value.training.sessionId, Training)
    ensures var r := TrainingStep(d, t, remote, tmp, reg);
            var got := remote[RemoteName(t.transmission.value.training.sessionId, LookupFile)].table;
            var key := ArrayKey(got.transmission.value.training.modelKey);
            LookupFile in r.dir && r.dir[LookupFile] == Table(Closed(t, Training))
            && TrainingIdle(Closed(t, Training).transmission.value.training)
            && r.registry.Keys == reg.Keys + {key}
            && (forall k :: k in reg ==> r.registry[k] == reg[k])
            && (key !in reg ==> r.registry[key] == got.transmission.value.training.modelName
                                && r.lines == CerOf(got) + [ModelTransferred])
            && (key in reg ==> r.lines == CerOf(got) + [TrainingFinished])
            && SameFile(r.dir, d, BoxesFile) && SameFile(r.dir, d, TranscriptionFile) && SameFile(r.dir, d, GeneratedFile)
            && StagedName(tmp, LookupFile) !in r.dir
  {
    TmpNotProtocol(tmp, LookupFile);
  }

  /**
   * A training job not yet reported finished, or whose ledger did not arrive, adds no
   * log line, registers nothing and leaves the protocol files; with a fresh identifier
   * it leaves the directory exactly as it was.
   */
  lemma TrainingWaits(d: Dir, t: LookupTable, remote: Dir, tmp: string, reg: Registry)
    requires t.transmission.Some? && IdShaped(tmp)
    requires !(Awaiting(t.transmission.value.training)
               && DoneRemotely(remote, t.transmission.value.training.sessionId, Training))
    ensures var r := TrainingStep(d, t, remote, tmp, reg);
            r.lines == [] && r.registry == reg && SameProtocolFiles(r.dir, d)
            && (StagedName(tmp, LookupFile) !in d ==> r.dir == d)
  {
    TmpNotProtocol(tmp, LookupFile);
  }

  // ---------------------------------------------------------------------------
  // Settled saves: what makes a second sweep quiet
  // ---------------------------------------------------------------------------

  /**
   * A save the sweep has nothing left to do for: its lookup table decodes, a backfill
   * would not change it, and no entry awaits a job the GPU server reports finished.
   */
  predicate Settled(dir: Dir, remote: Dir, pm: map<string, string>)
  {
    LookupFile in dir && dir[LookupFile].Table?
    && Backfilled(dir[LookupFile].table, ImagesOf(dir), pm) == dir[LookupFile].table
    && (dir[LookupFile].table.transmission.Some? ==> NothingDone(dir[LookupFile].table.transmission.value, remote))
  }

  predicate NothingDone(tr: Transmission, remote: Dir)
  {
    !(Awaiting(tr.recognition) && DoneRemotely(remote, tr.recognition.sessionId, Recognition))
    && !(Awaiting(tr.training) && DoneRemotely(remote, tr.training.sessionId, Training))
  }

  lemma ImagesAfterWrite(d: Dir, x: string, v: File)
    requires !IsImageName(x)
    ensures ImagesOf(d[x := v]) == ImagesOf(d)
  {
  }

  lemma ImagesAfterRemove(d: Dir, x: string)
    requires !IsImageName(x)
    ensures ImagesOf(d - {x}) == ImagesOf(d)
  {
  }

  /** The receive loop writes only temporary copies, so the save's images stay. */
  lemma ReceiveKeepsImages(d: Dir, remote: Dir, session: string, tmp: string)
    ensures ImagesOf(ReceiveEach(d, remote, session, tmp, Received)) == ImagesOf(d)
  {
    ReceiveChain(d, remote, session, tmp);
    TmpNotImage(tmp, BoxesFile);
    TmpNotImage(tmp, TranscriptionFile);
    TmpNotImage(tmp, LookupFile);
    TmpNotImage(tmp, GeneratedFile);
    var r1 := Receive(d, remote, RemoteName(session, BoxesFile), StagedName(tmp, BoxesFile));
    var r2 := Receive(r1, remote, RemoteName(session, TranscriptionFile), StagedName(tmp, TranscriptionFile));
    var r3 := Receive(r2, remote, RemoteName(session, LookupFile), StagedName(tmp, LookupFile));
    if RemoteName(session, BoxesFile) in remote {
      ImagesAfterWrite(d, StagedName(tmp, BoxesFile), remote[RemoteName(session, BoxesFile)]);
    }
    if RemoteName(session, TranscriptionFile) in remote {
      ImagesAfterWrite(r1, StagedName(tmp, TranscriptionFile), remote[RemoteName(session, TranscriptionFile)]);
    }
    if RemoteName(session, LookupFile) in remote {
      ImagesAfterWrite(r2, StagedName(tmp, LookupFile), remote[RemoteName(session, LookupFile)]);
    }
    if RemoteName(session, GeneratedFile) in remote {
      ImagesAfterWrite(r3, StagedName(tmp, GeneratedFile), remote[RemoteName(session, GeneratedFile)]);
    }
  }

  lemma RenameKeepsImages(d: Dir, from: string, to: string)
    requires !IsImageName(from) && !IsImageName(to)
    ensures ImagesOf(Rename(d, from, to)) == ImagesOf(d)
  {
    if from in d {
      ImagesAfterRemove(d, from);
      ImagesAfterWrite(d - {from}, to, d[from]);
    }
  }

  /** The rename loop moves temporary copies onto protocol files, so the save's images stay. */
  lemma RenameEachKeepsImages(d: Dir, tmp: string)
    ensures ImagesOf(RenameEach(d, tmp, Received)) == ImagesOf(d)
  {
    RenameChain(d, tmp);
    TmpNotImage(tmp, BoxesFile);
    TmpNotImage(tmp, TranscriptionFile);
    TmpNotImage(tmp, GeneratedFile);
    var r1 := Rename(d, StagedName(tmp, BoxesFile), BoxesFile);
    var r2 := Rename(r1, StagedName(tmp, TranscriptionFile), TranscriptionFile);
    RenameKeepsImages(d, StagedName(tmp, BoxesFile), BoxesFile);
    RenameKeepsImages(r1, StagedName(tmp, TranscriptionFile), TranscriptionFile);
    RenameKeepsImages(r2, StagedName(tmp, GeneratedFile), GeneratedFile);
  }

  /**
   * After the recognition attempt the stored table is the step's table, the images and
   * the image mapping are as they were, the training entry is untouched, and the
   * recognition entry no longer awaits a job the GPU server reports finished.
   */
  lemma RecognitionSettles(d: Dir, t: LookupTable, remote: Dir, tmp: string)
    requires t.transmission.Some? && FreshTmp(d, tmp) && LookupFile in d && d[LookupFile] == Table(t)
    ensures var r := RecognitionStep(d, t, remote, tmp);
            ImagesOf(r.dir) == ImagesOf(d) && LookupFile in r.dir && r.dir[LookupFile] == Table(r.table)
            && r.table.imageMapping == t.imageMapping && r.table.transmission.Some?
            && r.table.transmission.value.training == t.transmission.value.training
            && var e := r.table.transmission.value.recognition;
               !(Awaiting(e) && DoneRemotely(remote, e.sessionId, Recognition))
  {
    var e := t.transmission.value.recognition;
    if Awaiting(e) {
      var pulled := ReceiveEach(d, remote, e.sessionId, tmp, Received);
      var ledger := StagedName(tmp, LookupFile);
      PulledFile(d, remote, e.sessionId, tmp, LookupFile);
      ReceiveKeepsImages(d, remote, e.sessionId, tmp);
      TmpNotImage(tmp, LookupFile);
      TmpNotProtocol(tmp, LookupFile);
      if FinishedIn(pulled, ledger, Recognition) {
        var moved := RenameEach(pulled, tmp, Received);
        RenameEachKeepsImages(pulled, tmp);
        ImagesAfterWrite(moved, LookupFile, Table(Closed(t, Recognition)));
        ImagesAfterRemove(moved[LookupFile := Table(Closed(t, Recognition))], ledger);
      } else {
        ImagesAfterRemove(pulled, ledger);
      }
    }
  }

  /** The same for the training attempt, which leaves the recognition entry alone. */
  lemma TrainingSettles(d: Dir, t: LookupTable, remote: Dir, tmp: string, reg: Registry)
    requires t.transmission.Some? && IdShaped(tmp) && LookupFile in d && d[LookupFile] == Table(t)
    ensures var r := TrainingStep(d, t, remote, tmp, reg);
            ImagesOf(r.dir) == ImagesOf(d) && LookupFile in r.dir && r.dir[LookupFile].Table?
            && var u := r.dir[LookupFile].table;
               u.imageMapping == t.imageMapping && u.transmission.Some?
               && u.transmission.value.recognition == t.transmission.value.recognition
               && !(Awaiting(u.transmission.value.training)
                    && DoneRemotely(remote, u.transmission.value.training.sessionId, Training))
  {
    var e := t.transmission.value.training;
    var src := RemoteName(e.sessionId, LookupFile);
    var ledger := StagedName(tmp, LookupFile);
    TmpNotImage(tmp, LookupFile);
    TmpNotProtocol(tmp, LookupFile);
    if Awaiting(e) && src in remote {
      var got := d[ledger := remote[src]];
      ImagesAfterWrite(d, ledger, remote[src]);
      if ReportsFinished(remote[src], Training) {
        ImagesAfterWrite(got, LookupFile, Table(Closed(t, Training)));
        ImagesAfterRemove(got[LookupFile := Table(Closed(t, Training))], ledger);
      } else {
        ImagesAfterRemove(got, ledger);
      }
    }
  }

  /** A backfilled table needs no second backfill while the images stay. */
  lemma BackfillIdempotent(t: LookupTable, images: set<string>, pm: map<string, string>)
    ensures Backfilled(Backfilled(t, images, pm), images, pm) == Backfilled(t, images, pm)
  {
  }

  /** A visit that completes leaves its save settled (given fresh temporary identifiers). */
  lemma VisitSettles(dir: Dir, remote: Dir, reg: Registry, pm: map<string, string>, projectId: string,
                     projectName: string, save: string, tmpRec: string, tmpTrain: string)
    requires FreshTmp(dir, tmpRec) && IdShaped(tmpTrain)
    requires Visit(dir, remote, reg, pm, projectId, projectName, save, tmpRec, tmpTrain).Some?
    ensures Settled(Visit(dir, remote, reg, pm, projectId, projectName, save, tmpRec, tmpTrain).value.dir, remote, pm)
  {
    TmpNotImage(tmpRec, LookupFile);
    if LookupFile !in dir {
      var created := Recreated(projectId, projectName, save, ImagesOf(dir), pm);
      ImagesAfterWrite(dir, LookupFile, Table(created));
    } else {
      var t := Backfilled(dir[LookupFile].table, ImagesOf(dir), pm);
      var d := dir[LookupFile := Table(t)];
      ImagesAfterWrite(dir, LookupFile, Table(t));
      BackfillIdempotent(dir[LookupFile].table, ImagesOf(dir), pm);
      if t.transmission.Some? {
        TmpNotProtocol(tmpRec, BoxesFile);
        TmpNotProtocol(tmpRec, TranscriptionFile);
        TmpNotProtocol(tmpRec, LookupFile);
        TmpNotProtocol(tmpRec, GeneratedFile);
        assert FreshTmp(d, tmpRec);
        var r := RecognitionStep(d, t, remote, tmpRec);
        RecognitionSettles(d, t, remote, tmpRec);
        TrainingSettles(r.dir, r.table, remote, tmpTrain, reg);
        var u := TrainingStep(r.dir, r.table, remote, tmpTrain, reg).dir[LookupFile].table;
        assert Backfilled(u, ImagesOf(dir), pm) == u by {
          assert u.imageMapping == t.imageMapping;
        }
      }
    }
  }

  /**
   * A settled save's visit adds no log line, registers nothing and keeps its protocol
   * files; it only leaves temporary copies behind.
   */
  lemma VisitQuiet(dir: Dir, remote: Dir, reg: Registry, pm: map<string, string>, projectId: string,
                   projectName: string, save: string, tmpRec: string, tmpTrain: string)
    requires Settled(dir, remote, pm) && FreshTmp(dir, tmpRec) && IdShaped(tmpTrain)
    ensures var v := Visit(dir, remote, reg, pm, projectId, projectName, save, tmpRec, tmpTrain);
            v.Some? && v.value.lines == [] && v.value.registry == reg && SameProtocolFiles(v.value.dir, dir)
  {
    var t := dir[LookupFile].table;
    assert dir[LookupFile := Table(t)] == dir;
    if t.transmission.Some? {
      var e := t.transmission.value.recognition;
      var r := RecognitionStep(dir, t, remote, tmpRec);
      if Awaiting(e) {
        RecognitionWaits(dir, t, remote, tmpRec, BoxesFile);
      }
      TrainingWaits(r.dir, r.table, remote, tmpTrain, reg);
    }
  }

  // ---------------------------------------------------------------------------
  // Properties of the whole sweep
  // ---------------------------------------------------------------------------

  ghost predicate Distinct(names: seq<string>)
  {
    forall i, j :: 0 <= i < j < |names| ==> names[i] != names[j]
  }

  lemma DistinctTail(names: seq<string>)
    requires |names| > 0 && Distinct(names)
    ensures Distinct(names[1..]) && names[0] !in names[1..]
  {
  }

  /** The temporary identifiers drawn for the listed saves are fresh in them. */
  ghost predicate FreshIds(w: World, names: seq<string>, tmpId: (string, Kind) -> string)
  {
    forall s :: s in names && s in w.saves ==> FreshTmp(w.saves[s], tmpId(s, Recognition)) && IdShaped(tmpId(s, Training))
  }

  /**
   * The sweep visits only the listed saves: "thumbnails" and every unlisted directory
   * keep their content and their log, and no directory appears or disappears.
   */
  lemma {:induction false} SweepFrame(w: World, remote: Dir, pm: map<string, string>, projectId: string,
                                      projectName: string, tmpId: (string, Kind) -> string, names: seq<string>)
    ensures var w2 := SweepAll(w, remote, pm, projectId, projectName, tmpId, names).0;
            w2.saves.Keys == w.saves.Keys
            && (forall s :: s in w.saves && (s !in names || s == Thumbnails) ==>
                  w2.saves[s] == w.saves[s] && LogIn(w2.logs, s) == LogIn(w.logs, s))
    decreases |names|
  {
    if names != [] {
      var save := names[0];
      if save == Thumbnails || save !in w.saves {
        SweepFrame(w, remote, pm, projectId, projectName, tmpId, names[1..]);
      } else {
        var v := Visit(w.saves[save], remote, w.registry, pm, projectId, projectName, save,
                       tmpId(save, Recognition), tmpId(save, Training));
        if v.Some? {
          SweepFrame(Apply(w, save, v.value), remote, pm, projectId, projectName, tmpId, names[1..]);
        }
      }
    }
  }

  /** A visit only adds to the registry, and never renames a registered model. */
  lemma VisitKeepsNames(dir: Dir, remote: Dir, reg: Registry, pm: map<string, string>, projectId: string,
                        projectName: string, save: string, tmpRec: string, tmpTrain: string)
    requires Visit(dir, remote, reg, pm, projectId, projectName, save, tmpRec, tmpTrain).Some?
    ensures var r := Visit(dir, remote, reg, pm, projectId, projectName, save, tmpRec, tmpTrain).value.registry;
            reg.Keys <= r.Keys && forall k :: k in reg ==> r[k] == reg[k]
  {
  }

  /** Across the whole sweep the registry only grows, and a registered name never changes. */
  lemma {:induction false} SweepRegistryGrows(w: World, remote: Dir, pm: map<string, string>, projectId: string,
                                              projectName: string, tmpId: (string, Kind) -> string, names: seq<string>)
    ensures var w2 := SweepAll(w, remote, pm, projectId, projectName, tmpId, names).0;
            w.registry.Keys <= w2.registry.Keys && forall k :: k in w.registry ==> w2.registry[k] == w.registry[k]
    decreases |names|
  {
    if names != [] {
      var save := names[0];
      if save == Thumbnails || save !in w.saves {
        SweepRegistryGrows(w, remote, pm, projectId, projectName, tmpId, names[1..]);
      } else {
        var v := Visit(w.saves[save], remote, w.registry, pm, projectId, projectName, save,
                       tmpId(save, Recognition), tmpId(save, Training));
        if v.Some? {
          VisitKeepsNames(w.saves[save], remote, w.registry, pm, projectId, projectName, save,
                          tmpId(save, Recognition), tmpId(save, Training));
          SweepRegistryGrows(Apply(w, save, v.value), remote, pm, projectId, projectName, tmpId, names[1..]);
        }
      }
    }
  }

  /** A sweep that completes leaves every listed save other than "thumbnails" settled. */
  lemma {:induction false} SweepSettles(w: World, remote: Dir, pm: map<string, string>, projectId: string,
                                        projectName: string, tmpId: (string, Kind) -> string, names: seq<string>)
    requires Distinct(names) && FreshIds(w, names, tmpId)
    ensures var r := SweepAll(w, remote, pm, projectId, projectName, tmpId, names);
            r.0.saves.Keys == w.saves.Keys
            && (!r.1 ==> forall s :: s in names && s != Thumbnails && s in w.saves ==> Settled(r.0.saves[s], remote, pm))
    decreases |names|
  {
    SweepFrame(w, remote, pm, projectId, projectName, tmpId, names);
    if names != [] {
      var save := names[0];
      DistinctTail(names);
      if save == Thumbnails || save !in w.saves {
        SweepSettles(w, remote, pm, projectId, projectName, tmpId, names[1..]);
      } else {
        var v := Visit(w.saves[save], remote, w.registry, pm, projectId, projectName, save,
                       tmpId(save, Recognition), tmpId(save, Training));
        if v.Some? {
          var w1 := Apply(w, save, v.value);
          VisitSettles(w.saves[save], remote, w.registry, pm, projectId, projectName, save,
                       tmpId(save, Recognition), tmpId(save, Training));
          SweepSettles(w1, remote, pm, projectId, projectName, tmpId, names[1..]);
          SweepFrame(w1, remote, pm, projectId, projectName, tmpId, names[1..]);
        }
      }
    }
  }

  /**
   * Sweeping saves that are all settled adds no log line, registers nothing and keeps
   * every protocol file; only temporary copies may be left behind.
   */
  lemma {:induction false} SweepQuiet(w: World, remote: Dir, pm: map<string, string>, projectId: string,
                                      projectName: string, tmpId: (string, Kind) -> string, names: seq<string>)
    requires Distinct(names) && FreshIds(w, names, tmpId)
    requires forall s :: s in names && s != Thumbnails && s in w.saves ==> Settled(w.saves[s], remote, pm)
    ensures var r := SweepAll(w, remote, pm, projectId, projectName, tmpId, names);
            !r.1 && r.0.registry == w.registry && r.0.logs == w.logs && r.0.saves.Keys == w.saves.Keys
            && forall s :: s in w.saves ==> SameProtocolFiles(r.0.saves[s], w.saves[s])
    decreases |names|
  {
    if names != [] {
      var save := names[0];
      DistinctTail(names);
      if save == Thumbnails || save !in w.saves {
        SweepQuiet(w, remote, pm, projectId, projectName, tmpId, names[1..]);
      } else {
        VisitQuiet(w.saves[save], remote, w.registry, pm, projectId, projectName, save,
                   tmpId(save, Recognition), tmpId(save, Training));
        var o := Visit(w.saves[save], remote, w.registry, pm, projectId, projectName, save,
                       tmpId(save, Recognition), tmpId(save, Training)).value;
        var w1 := Apply(w, save, o);
        assert w1 == World(w.saves[save := o.dir], w.logs, w.registry);
        SweepQuiet(w1, remote, pm, projectId, projectName, tmpId, names[1..]);
        var w2 := SweepAll(w1, remote, pm, projectId, projectName, tmpId, names[1..]).0;
        forall s | s in w.saves ensures SameProtocolFiles(w2.saves[s], w.saves[s]) {
          assert SameProtocolFiles(w2.saves[s], w1.saves[s]);
        }
      }
    }
  }

  /**
   * Sweeping twice against the same GPU server state is sweeping once: the second
   * sweep completes, adds no log line, registers nothing and changes no protocol file.
   */
  lemma SweepIdempotent(w: World, remote: Dir, pm: map<string, string>, projectId: string, projectName: string,
                        tmp1: (string, Kind) -> string, tmp2: (string, Kind) -> string, names: seq<string>)
    requires Distinct(names) && FreshIds(w, names, tmp1)
    requires FreshIds(SweepAll(w, remote, pm, projectId, projectName, tmp1, names).0, names, tmp2)
    ensures var once := SweepAll(w, remote, pm, projectId, projectName, tmp1, names);
            var twice := SweepAll(once.0, remote, pm, projectId, projectName, tmp2, names);
            !once.1 ==>
              !twice.1 && twice.0.registry == once.0.registry && twice.0.logs == once.0.logs
              && twice.0.saves.Keys == once.0.saves.Keys
              && forall s :: s in once.0.saves ==> SameProtocolFiles(twice.0.saves[s], once.0.saves[s])
  {
    var once := SweepAll(w, remote, pm, projectId, projectName, tmp1, names);
    if !once.1 {
      SweepSettles(w, remote, pm, projectId, projectName, tmp1, names);
      SweepFrame(w, remote, pm, projectId, projectName, tmp1, names);
      SweepQuiet(once.0, remote, pm, projectId, projectName, tmp2, names);
    }
  }

  // ---------------------------------------------------------------------------
  // The sweep as the page runs it
  // ---------------------------------------------------------------------------

  function WorldOf(site: Site): World
    reads site
    requires site.project.registry.Some?
  {
    World(site.saves, site.logs, site.project.registry.value)
  }

  /** A directory listing: every name once, and exactly the given names. */
  ghost predicate Lists(listing: seq<string>, names: set<string>)
  {
    (forall i, j :: 0 <= i < j < |listing| ==> listing[i] != listing[j])
    && (forall n :: n in listing <==> n in names)
  }

  /** glob of a save with the pattern "*.{jpg,png,jpeg}": its image files, each once. */
  method ListImages(dir: Dir) returns (images: seq<string>)
    ensures forall f :: f in images <==> f in ImagesOf(dir)
  {
    images := [];
    var todo := ImagesOf(dir);
    while todo != {}
      invariant forall f :: f in images || f in todo <==> f in ImagesOf(dir)
      decreases |todo|
    {
      var f :| f in todo;
      images := images + [f];
      todo := todo - {f};
    }
  }

  /** The backfill loop: copy the project's name of every image of the save it knows. */
  method BackfillMapping(t: LookupTable, images: seq<string>, pm: map<string, string>) returns (r: LookupTable)
    requires |t.imageMapping| == 0
    ensures r == t.(imageMapping := KnownNames((set img | img in images), pm))
  {
    assert t.imageMapping == map[];
    r := t;
    var i := 0;
    while i < |images|
      invariant 0 <= i <= |images|
      invariant r == t.(imageMapping := KnownNames((set img | img in images[..i]), pm))
    {
      assert forall img :: img in images[..i + 1] <==> img in images[..i] || img == images[i];
      if images[i] in pm {
        r := r.(imageMapping := r.imageMapping[images[i] := pm[images[i]]]);
      }
      i := i + 1;
    }
    assert images[..i] == images;
  }

  /** The receive loop over the four outputs. */
  method ReceiveFiles(d: Dir, remote: Dir, session: string, tmp: string) returns (r: Dir)
    ensures r == ReceiveEach(d, remote, session, tmp, Received)
  {
    r := d;
    var i := 0;
    while i < |Received|
      invariant 0 <= i <= |Received|
      invariant r == ReceiveEach(d, remote, session, tmp, Received[..i])
    {
      var src := RemoteName(session, Received[i]);
      if src in remote {
        r := r[StagedName(tmp, Received[i]) := remote[src]];
      }
      assert Received[..i + 1][..i] == Received[..i];
      i := i + 1;
    }
    assert Received[..i] == Received;
  }

  /** The rename loop over the four outputs, skipping the ledger. */
  method RenameFiles(d: Dir, tmp: string) returns (r: Dir)
    ensures r == RenameEach(d, tmp, Received)
  {
    r := d;
    var i := 0;
    while i < |Received|
      invariant 0 <= i <= |Received|
      invariant r == RenameEach(d, tmp, Received[..i])
    {
      var name := Received[i];
      if name != LookupFile {
        var from := StagedName(tmp, name);
        if from in r {
          r := (r - {from})[name := r[from]];
        }
      }
      assert Received[..i + 1][..i] == Received[..i];
      i := i + 1;
    }
    assert Received[..i] == Received;
  }

  /** The recognition branch of one save's visit. */
  method Recognize(d: Dir, t: LookupTable, remote: Dir, tmp: string) returns (r: Step)
    requires t.transmission.Some? && Awaiting(t.transmission.value.recognition)
    ensures r == RecognitionStep(d, t, remote, tmp)
  {
    var session := t.transmission.value.recognition.sessionId;
    var pulled := ReceiveFiles(d, remote, session, tmp);
    var ledger := StagedName(tmp, LookupFile);
    if FinishedIn(pulled, ledger, Recognition) {
      var moved := RenameFiles(pulled, tmp);
      var closed := Closed(t, Recognition);
      r := Step(moved[LookupFile := Table(closed)] - {ledger}, closed, [RecognitionTransferred]);
    } else {
      r := Step(pulled - {ledger}, t, []);
    }
  }

  /** One save's visit, on the values it reads; None when the page dies on it. */
  method VisitDir(dir: Dir, remote: Dir, reg: Registry, pm: map<string, string>, projectId: string,
                  projectName: string, save: string, tmpRec: string, tmpTrain: string) returns (o: Option<Outcome>)
    ensures o == Visit(dir, remote, reg, pm, projectId, projectName, save, tmpRec, tmpTrain)
  {
    var images := ListImages(dir);
    assert (set img | img in images) == ImagesOf(dir);
    if LookupFile !in dir {
      var created := Utils.CreateNewLookupTable(projectId, projectName, save, save, images, pm);
      assert created.imageMapping == KnownNames(ImagesOf(dir), pm);
      return Some(Outcome(dir[LookupFile := Table(created)], [], reg));
    }
    if !dir[LookupFile].Table? {
      // array_keys(null) throws a TypeError that nothing catches
      return None;
    }
    var t := dir[LookupFile].table;
    if |t.imageMapping| == 0 {
      t := BackfillMapping(t, images, pm);
    }
    var d := dir[LookupFile := Table(t)];
    if t.transmission.None? {
      return Some(Outcome(d, [], reg));
    }
    var step := Step(d, t, []);
    if Awaiting(t.transmission.value.recognition) {
      step := Recognize(d, t, remote, tmpRec);
    }
    var tr := TrainingStep(step.dir, step.table, remote, tmpTrain, reg);
    o := Some(Outcome(tr.dir, step.lines + tr.lines, tr.registry));
  }

  /** One save's visit written back to the site; true when the page dies on it. */
  method VisitSave(site: Site, save: string, pm: map<string, string>, projectId: string, projectName: string,
                   tmpRec: string, tmpTrain: string) returns (died: bool)
    requires save in site.saves && site.project.registry.Some?
    modifies site
    ensures site.project.registry.Some?
    ensures var v := Visit(old(site.saves[save]), site.remote, old(site.project.registry.value), pm,
                           projectId, projectName, save, tmpRec, tmpTrain);
            (died <==> v.None?)
            && (v.None? ==> WorldOf(site) == old(WorldOf(site)))
            && (v.Some? ==> WorldOf(site) == Apply(old(WorldOf(site)), save, v.value))
    ensures site.remote == old(site.remote) && site.images == old(site.images) && site.errors == old(site.errors)
    ensures site.project == old(site.project).(registry := site.project.registry)
  {
    var o := VisitDir(site.saves[save], site.remote, site.project.registry.value, pm, projectId, projectName,
                      save, tmpRec, tmpTrain);
    if o.None? {
      return true;
    }
    site.saves := site.saves[save := o.value.dir];
    site.project := site.project.(registry := Some(o.value.registry));
    if o.value.lines != [] {
      site.AppendLog(save, o.value.lines);
    }
    died := false;
  }

  /**
   * sync_files_from_GPU_server: visit the saves in the order the directory listing
   * gives them, skipping "thumbnails"; true when the page died on a save.
   */
  method SweepSaves(site: Site, listing: seq<string>, projectId: string, projectName: string,
                    tmpId: (string, Kind) -> string) returns (died: bool)
    requires site.Migrated()
    requires Lists(listing, site.saves.Keys)
    modifies site
    ensures site.Migrated()
    ensures (WorldOf(site), died) == SweepAll(old(WorldOf(site)), site.remote, old(site.project.imageMapping.value),
                                              projectId, projectName, tmpId, listing)
    ensures site.remote == old(site.remote) && site.images == old(site.images) && site.errors == old(site.errors)
    ensures site.project == old(site.project).(registry := site.project.registry)
  {
    var pm := site.project.imageMapping.value;
    var i := 0;
    while i < |listing|
      invariant 0 <= i <= |listing|
      invariant site.Migrated() && site.project == old(site.project).(registry := site.project.registry)
      invariant site.remote == old(site.remote) && site.images == old(site.images) && site.errors == old(site.errors)
      invariant SweepAll(WorldOf(site), site.remote, pm, projectId, projectName, tmpId, listing[i..])
                == SweepAll(old(WorldOf(site)), site.remote, pm, projectId, projectName, tmpId, listing)
    {
      var save := listing[i];
      assert listing[i..][0] == save && listing[i..][1..] == listing[i + 1..];
      if save != Thumbnails && save in site.saves {
        died := VisitSave(site, save, pm, projectId, projectName, tmpId(save, Recognition), tmpId(save, Training));
        if died {
          return;
        }
      }
      i := i + 1;
    }
    died := false;
  }
}
