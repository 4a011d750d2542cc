/**
 * The CPU worker (web/image_processing_view/image_processing_wrapper.py): it reads the
 * save's documents, sets the frozen boxes aside, runs one of the four CPU modules
 * (line segmentation, segmentation, clustering, label propagation) on the save's
 * images, puts the frozen boxes back and, only when the module reports no error,
 * overwrites the boxes and the transcription and sets the success flag.
 *
 * The module itself is an input: a function from what the wrapper hands it to its
 * error message, boxes and transcription.
 */
module CpuWrapper {
  import opened Wrappers
  import opened PhpValues
  import opened SaveFiles
  import opened FrozenBoxes

  /** "codes": the script names the wrapper maps to a module. */
  const Codes: set<string> :=
    {"datech_line_segmentation.py", "async_segmentation.py", "async_kmeans.py", "async_label_propagation.py"}

  /** Why a run raised. */
  datatype Raise =
    | UnknownCode     // codes[args.code] raises KeyError
    | InvalidCode     // the ValueError("invalid target code") branch
    | UnplacedFrozen  // a frozen box's image is missing from the module's boxes (KeyError)
    | ModuleError     // the module returned an error message

  /** What the wrapper reads: the documents, the transcription, the parameters, the lookup table and the flag. */
  datatype Inputs = Inputs(documents: Documents, transcription: Payload, parameters: Payload,
                           table: LookupTable, flag: map<string, int>)

  /** What a module's main receives. */
  datatype Call = Call(code: string, documents: Documents, transcription: Payload, imagesPath: string,
                       parameters: Payload)

  /** What a module's main returns: (error_message, bounding_boxes_json, transcription_json). */
  datatype Reply = Reply(error: Option<string>, documents: Documents, transcription: Payload)

  /** The three files a successful run overwrites. */
  datatype Outputs = Outputs(documents: Documents, transcription: Payload, flag: map<string, int>)

  datatype Run = Run(raised: Option<Raise>, written: Option<Outputs>)

  /** "<user_projects>/<project_id>/<save_id>", from the save's own lookup table. */
  function ImagesPath(userProjects: string, table: LookupTable): string
  {
    userProjects + "/" + table.projectId + "/" + table.saveId
  }

  /**
   * The images path is the save directory the endpoint works in, when the lookup
   * table names that project and that save.
   */
  lemma ImagesPathIsSaveDir(userProjects: string, table: LookupTable, projectDir: string, save: string)
    requires projectDir == userProjects + "/" + table.projectId && save == table.saveId
    ensures ImagesPath(userProjects, table) == projectDir + "/" + save
  {
  }

  /** The call the wrapper makes: the documents without their frozen boxes. */
  function CallOf(code: string, userProjects: string, inputs: Inputs): Call
  {
    Call(code, RegularOf(inputs.documents), inputs.transcription, ImagesPath(userProjects, inputs.table), inputs.parameters)
  }

  /**
   * main, given the module as a function of its call. A run writes exactly when it
   * raises nothing; an unknown code fails at the lookup, before any module runs, and
   * the "invalid target code" branch is never taken; a successful run sets only the
   * flag's success key, to 1.
   */
  function Work(code: string, userProjects: string, inputs: Inputs, proc: Call -> Reply): (r: Run)
    ensures r.raised.None? <==> r.written.Some?
    ensures r.raised == Some(UnknownCode) <==> code !in Codes
    ensures r.raised != Some(InvalidCode)
    ensures r.written.Some? ==>
              && SuccessKey in r.written.value.flag && r.written.value.flag[SuccessKey] == 1
              && r.written.value.flag.Keys == inputs.flag.Keys + {SuccessKey}
              && (forall key :: key in inputs.flag && key != SuccessKey ==> r.written.value.flag[key] == inputs.flag[key])
    ensures r.raised == Some(ModuleError) ==> proc(CallOf(code, userProjects, inputs)).error.Some?
    ensures r.written.Some? ==> proc(CallOf(code, userProjects, inputs)).error.None?
  {
    if code !in Codes then Run(Some(UnknownCode), None)
    else
      var reply := proc(CallOf(code, userProjects, inputs));
      var frozen := FrozenOf(inputs.documents);
      if Unplaced(reply.documents, frozen) != {} then Run(Some(UnplacedFrozen), None)
      else if reply.error.Some? then Run(Some(ModuleError), None)
      else Run(None, Some(Outputs(Restored(reply.documents, frozen), reply.transcription, inputs.flag[SuccessKey := 1])))
  }

  /** main, step by step: the partition loop, the module, the restore loop and the writes. */
  method RunModule(code: string, userProjects: string, inputs: Inputs, proc: Call -> Reply) returns (r: Run)
    ensures r == Work(code, userProjects, inputs, proc)
  {
    var regular, frozen := PartitionFrozen(inputs.documents);
    if code !in Codes {
      return Run(Some(UnknownCode), None);
    }
    var reply := proc(Call(code, regular, inputs.transcription, ImagesPath(userProjects, inputs.table), inputs.parameters));
    if Unplaced(reply.documents, frozen) != {} {
      return Run(Some(UnplacedFrozen), None);
    }
    var docs := RestoreFrozen(reply.documents, frozen);
    if reply.error.Some? {
      return Run(Some(ModuleError), None);
    }
    var flag := inputs.flag[SuccessKey := 1];
    r := Run(None, Some(Outputs(docs, reply.transcription, flag)));
  }

  /** The module never sees a frozen box, and sees every image of the documents. */
  lemma ModuleSeesNoFrozenBox(code: string, userProjects: string, inputs: Inputs, key: string)
    ensures CallOf(code, userProjects, inputs).documents.Keys == inputs.documents.Keys
    ensures key in inputs.documents ==>
              forall b :: b in CallOf(code, userProjects, inputs).documents[key] ==> !b.frozen
  {
    if key in inputs.documents {
      PartitionLosesNothing(inputs.documents[key]);
    }
  }

  /**
   * Every frozen box comes back: after a successful run each image the module
   * returned holds the module's boxes followed by the image's frozen boxes, in
   * their order, and an image with a frozen box is never dropped.
   */
  lemma FrozenBoxesSurvive(code: string, userProjects: string, inputs: Inputs, proc: Call -> Reply, key: string)
    requires Work(code, userProjects, inputs, proc).written.Some?
    requires key in inputs.documents
    ensures var out := Work(code, userProjects, inputs, proc).written.value.documents;
            var reply := proc(CallOf(code, userProjects, inputs));
            && (Frozen(inputs.documents[key]) != [] ==> key in out)
            && (key in out ==> out[key] == reply.documents[key] + Frozen(inputs.documents[key]))
            && (key in out ==> multiset(Frozen(inputs.documents[key])) <= multiset(out[key]))
  {
    var reply := proc(CallOf(code, userProjects, inputs));
    if Frozen(inputs.documents[key]) != [] {
      assert key !in Unplaced(reply.documents, FrozenOf(inputs.documents));
    }
  }

  /**
   * A module that hands back exactly the boxes it was given leaves every image with
   * exactly its boxes: the regular ones first, the frozen ones after them.
   */
  lemma IdleModuleKeepsBoxes(code: string, userProjects: string, inputs: Inputs, proc: Call -> Reply, key: string)
    requires code in Codes && key in inputs.documents
    requires var reply := proc(CallOf(code, userProjects, inputs));
             reply.error.None? && reply.documents == RegularOf(inputs.documents)
    ensures var r := Work(code, userProjects, inputs, proc);
            && r.written.Some?
            && multiset(r.written.value.documents[key]) == multiset(inputs.documents[key])
            && ((forall i :: 0 <= i < |inputs.documents[key]| ==> !inputs.documents[key][i].frozen) ==>
                  r.written.value.documents[key] == inputs.documents[key])
  {
    RestoreKeepsBoxes(inputs.documents, key);
  }

  /** The flag file a run leaves: the written flag on success, the one it found otherwise. */
  function FlagLeft(flag: map<string, int>, r: Run): map<string, int>
  {
    if r.written.Some? then r.written.value.flag else flag
  }

  /**
   * Read back by the endpoint, the flag says success exactly when the run wrote its
   * outputs, provided the flag was reset to anything but 1 before the run.
   */
  lemma FlagTellsOutcome(code: string, userProjects: string, inputs: Inputs, proc: Call -> Reply)
    requires SuccessKey in inputs.flag ==> inputs.flag[SuccessKey] != 1
    ensures var r := Work(code, userProjects, inputs, proc);
            FlagFileOf(FlagLeft(inputs.flag, r)).success == Some(1) <==> r.raised.None?
  {
  }
}
