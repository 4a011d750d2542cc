/**
 * The files of a save directory and of the GPU server's temp folder, as the PHP and
 * Python code reads and writes them, and the names that tie them together.
 */
module SaveFiles {
  import opened Wrappers
  import opened PhpValues
  import opened Ledger

  /** A save's lookup_table.json. */
  datatype LookupTable = LookupTable(
    projectId: string,
    saveId: string,
    userGivenProjectName: string,
    userGivenSaveName: string,
    imageMapping: map<string, string>,
    transmission: Option<Transmission>,
    cer: Option<string>)

  /** The few-shot execution parameters a dispatcher rebuilds from the request. */
  datatype Param =
    | NumberOfShots | ThresholdFewShots | SelectedAlphabet | SelectedModel | SelectedModelName
    | ReadSpaces | UserValidation | NewModelName | Epochs

  /** The parameter's key in the request payload and in execution_parameters.json. */
  function Key(p: Param): string
  {
    match p
    case NumberOfShots => "numberOfShots"
    case ThresholdFewShots => "thresholdFewShots"
    case SelectedAlphabet => "selectedAlphabetFewShots"
    case SelectedModel => "selectedModelFewShots"
    case SelectedModelName => "selected_model_user_given_name"
    case ReadSpaces => "fewShotReadSpacesBool"
    case UserValidation => "user_validation_flag"
    case NewModelName => "few_shot_train_new_model_name"
    case Epochs => "few_shot_train_epochs"
  }

  /**
   * The parameters file: the kept payload keys, the images of the boxes document
   * ("array_images") and the derived "new_model_key" (null when no model was chosen).
   */
  datatype ExecParams = ExecParams(kept: map<Param, Value>, images: seq<string>, newModelKey: Option<string>)

  /**
   * A file's content, as far as the protocol looks into it: bounding_boxes.json by
   * the keys of its "documents" object, lookup_table.json by its fields,
   * success_flag_file.json by its "image_processing_success" value, the execution
   * parameters by their payload; everything else (images, transcriptions) is opaque.
   */
  datatype File =
    | Blob(content: string)
    | Boxes(images: seq<string>, content: string)
    | Table(table: LookupTable)
    | Flag(success: Option<int>)
    | Parameters(params: ExecParams)  // a few-shot run's execution parameters
    | Settings(values: Payload)       // a CPU module's execution parameters
    | Texts(texts: map<string, string>) // transcriptions by image path, as an import writes them
    | Thumbnail(width: nat, height: nat) // a thumbnail image; its pixels are not modelled, only its size

  /** A directory: file name -> content. */
  type Dir = map<string, File>

  const BoxesFile: string := "bounding_boxes.json"
  const TranscriptionFile: string := "transcription.json"
  const GeneratedFile: string := "generated_transcription.json"
  const LookupFile: string := "lookup_table.json"
  const FlagFile: string := "success_flag_file.json"
  /** The key of the success flag file: 1 for success, 0 for failure. */
  const SuccessKey: string := "image_processing_success"
  const ParametersFile: string := "execution_parameters.json"
  const TmpLookupFile: string := "tmp_lookup_table.json"

  /** The suffix the worker appends to its output files ($suffix in config.php). */
  const Suffix: string := "_output"

  /** The name under which a file of a session is staged in the GPU server's temp folder. */
  function StagedName(session: string, name: string): string
  {
    session + "-" + name
  }

  /** A staged name splits back into the session and the file name. */
  lemma StagedNameSplits(session: string, name: string)
    ensures |StagedName(session, name)| == |session| + 1 + |name|
    ensures StagedName(session, name)[..|session| + 1] == session + "-"
    ensures StagedName(session, name)[|session| + 1..] == name
  {
  }

  /** The name of the worker's output for a staged "<base>.json" file. */
  function OutputName(session: string, base: string): string
  {
    StagedName(session, base + Suffix + ".json")
  }

  /** The flag file as a dispatcher decodes it: by its success key. */
  function FlagFileOf(flag: map<string, int>): (f: File)
    ensures f.Flag? && (f.success == Some(1) <==> SuccessKey in flag && flag[SuccessKey] == 1)
  {
    Flag(if SuccessKey in flag then Some(flag[SuccessKey]) else None)
  }

  /** One line of a save's log.txt (timestamps left out). */
  datatype LogLine =
    | Welcome(project: string, save: string)
    | Starting(job: string)
    | Setting(param: Param, shown: Value) // "<label> = <value>" under a start line; null prints as empty
    | Toggle(param: Param, on: bool)      // "<label> = yes" or "<label> = no" under a start line
    | Failed(job: string)
    | Finished(job: string)
    | CerReport(text: string)
    | CerMissing
    | RecognitionTransferred
    | ModelTransferred
    | TrainingFinished

  /** What the server wrote into an error.txt. */
  datatype Incident =
    | NoSaveDir
    | NoProjectDir
    | NoFiles
    | ZipUnreadable
    | BadScriptKey
    | SendFailed
    | PythonOutput
    | TimedOut
    | ResultsMissing
    | PythonFailed
    | Uncaught

  datatype ErrorRecord = ErrorRecord(path: string, incident: Incident, session: Option<string>)

  /** The image files of a directory listing: *.jpg, *.png and *.jpeg (glob is case-sensitive). */
  predicate IsImageName(name: string)
  {
    (|name| >= 4 && (name[|name| - 4..] == ".jpg" || name[|name| - 4..] == ".png"))
    || (|name| >= 5 && name[|name| - 5..] == ".jpeg")
  }
}
