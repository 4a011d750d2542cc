# transcripttool: the job protocol and its endpoints, in Dafny

This project models the part of transcripttool that moves work between the web server and the machines that run image processing. transcripttool is a web application for annotating scanned cipher manuscripts.

- **The remote few-shot dispatcher** (`GpuDispatch`) does the following:
  - rebuilds a recognition or training request from an allow-list with range checks;
  - derives the key of the model a training run will produce;
  - marks the save's transmission ledger in flight before it contacts the GPU server;
  - stages the save's files under the session's prefix;
  - runs the worker with a bounded wait;
  - when the run ends inside the wait, adopts the results, clears the ledger entry and registers the trained model.
- **The transmission ledger and the model registry** (`Ledger`) are the per-save record of in-flight jobs and the project's map from model key to model name. A registration never overwrites a key.
- **The reconciliation sweep** (`Sweep`) runs on every load of the project view. For every save whose ledger still shows a job in flight, it asks the GPU server whether the job finished. If it did, the sweep adopts the results, closes the entry and registers the model.
- **The project view's page load** (`ProjectView`) opens or migrates the project table, copies incoming images, runs the sweep, makes thumbnails and writes the table back.
- **The two workers** (`GpuWrapper`, `CpuWrapper`) set the user's frozen boxes aside (`FrozenBoxes`) and run a module. Only when the module reports no error do they put the frozen boxes back, write the outputs and set the success flag.
- **The local GPU dispatcher and the CPU-script endpoint** (`LocalDispatch`, `AsyncScripts`) run a worker on the save directory itself. A run succeeds exactly when the worker left the success flag at 1.
- **The project view's uploads** (`UploadImages`, `ImportSave`) cover image upload and the import of a zipped save.
- **The browser's checks** (`ClientChecks`) are the range checks the image-processing page applies before it posts a request. Each is proved to agree with the server's. This part also covers how the page reads a failed response and the loop that lists fine-tuned models.

The shared state is the class `Site.Site`. Its fields are:

- the project table;
- the plain files in the project folder (its images, and anything else the page copied in);
- each save's files as a map from file name to file;
- each save's log;
- the error logs;
- the GPU server's temp folder.

The endpoints are methods that modify a `Site`. Each method is proved against a specification function, and the properties are lemmas about those functions.

Modules: `Wrappers`, `PhpValues` (JSON request values and PHP's `is_int`, `is_numeric`, truthiness and `=== 1`), `Ledger`, `SaveFiles`, `Utils`, `Site`, `Strings`, `GpuDispatch`, `Sweep`, `ProjectView`, `FrozenBoxes`, `GpuWrapper`, `LocalDispatch`, `CpuWrapper`, `AsyncScripts`, `UploadImages`, `ImportSave`, `ClientChecks`.

Where the repository's intent and its code disagree, the model follows the code, with one exception. The three defects under "## Findings" are modelled twice, as written and corrected, and the endpoints are built on the corrected halves; "## Left out" names each endpoint this affects. Elsewhere the model follows the code:

- **Parameters the local dispatcher passes through.** The local dispatcher (`run_gpu_python_code_local.php`) passes the request's parameters through without the allow-list the remote dispatcher applies. `LocalDispatch.PassedThrough` models exactly that.
- **The undefined `$projectDir` in the remote dispatcher.** `run_gpu_python_code.php:30` logs a missing save directory with `$projectDir`, which is undefined at that point. The record therefore goes to the working directory's `error.txt`.
- **The import's temporary folder.** It is not removed on every path:
  - the no-file 400 exits before the cleanup (import_save.php:29-34);
  - a thrown error skips it as well.

  The folder left behind is part of the import's effect (`ImportSave.Outcome`). The uploaded zip itself is not modelled (see "## Left out").
- **The import's boxes file.** The import removes the image mapping from the boxes document only in memory (import_save.php:94). The stored `bounding_boxes.json` is the archive's own (`ImportSave.StoredBoxesAsArchived`).
- **The import's project mapping.** The import merges the archive's image mapping into the project table in memory (import_save.php:87-105) and never writes it back. The model keeps the merge and its one observable effect: a project table without a mapping makes it throw.
- **Files the page copies in.** The page load lists the project's images with a case-sensitive `*.{jpg,png,jpeg}` glob (index.php:534, 570). An incoming file with another extension, such as `scan.tif` or `scan.JPG`, is therefore copied again on every load and has its name reset each time, but it is never listed and never gets a thumbnail (`ProjectView.CopiedUnlessListed`, `ProjectView.ReloadCopiesNoImage`).
- **Crossed names in the import.** Each entry is extracted under its own name and then renamed onto its landing name (import_save.php:121-122, 131-132). An entry named like an earlier entry's landing name therefore overwrites that file before it is renamed, and the file is lost (`ImportSave.LandedLoses`, `ImportSave.CrossedNamesLoseFile`).
- **Case of `.txt` files.** `glob("*.txt")` is case-sensitive, so a `.TXT` file extracted from an archive stays in the imported save (`ImportSave.WithoutTxt`).

## Model

| member | source | states |
|---|---|---|
| `PhpValues.Get` | web/image_processing_view/run_gpu_python_code.php:38-39 | reading a key the request body lacks yields null; a present key yields its value |
| `PhpValues.NumberOf` | web/image_processing_view/run_gpu_python_code.php:57 | null, booleans, arrays and objects are not numeric; an integer reads as itself |
| `Ledger.LedgerOrDefault` | web/image_processing_view/run_gpu_python_code.php:161-180 | a lookup table without a ledger starts from the template: both entries idle, the training entry with empty model key and name; a stored ledger is used unchanged |
| `Ledger.MarkInFlight` | web/image_processing_view/run_gpu_python_code.php:189-234 | the chosen kind's entry becomes finished = 0 with the session id (training also records model key and name); the other kind's entry is untouched |
| `Ledger.CloseEntry` | web/index.php:309-348 | the sweep's close makes the entry idle (finished = 1, empty session id); a training entry also forgets its model key and name; the other kind is untouched |
| `Ledger.ClearIfFinished` | web/image_processing_view/run_gpu_python_code.php:400-417 | after adoption the dispatcher clears an entry reporting finished === 1 exactly as the sweep closes it, and keeps any other ledger as received |
| `Ledger.MarkFinished` | gpu/gpu_image_processing_wrapper.py:786-791 | the worker sets finished = 1 on the executed kind only, keeping session id, model key and name |
| `Ledger.Lifecycle` | web/image_processing_view/run_gpu_python_code.php:400-411 | marked in flight, then flagged by the worker: the dispatcher's clear and the sweep's close give the same ledger, idle for that kind, with the other kind as before the dispatch |
| `Ledger.ArrayKey` | web/image_processing_view/run_gpu_python_code.php:413-414 | a null model key becomes the array key "" |
| `Ledger.RegisterIfAbsent` | web/index.php:353-356 | a model key is added only when absent; existing registrations keep their names |
| `Ledger.RegisterAllMonotone` | web/index.php:351-356 | over any series of registrations the registry's keys are the old keys plus the registered ones, and no registered name changes |
| `Ledger.RegisterAllFirstWins` | web/index.php:353-356 | a key's first registration fixes its name; later registrations of the key change nothing |
| `Ledger.RegisterAllIdempotent` | web/index.php:351-356 | registering the same completions again leaves the registry as it is |
| `Ledger.RegisterAllAbsorbs` | web/index.php:353 | registering only keys already present changes nothing |
| `SaveFiles.StagedNameSplits` | web/image_processing_view/run_gpu_python_code.php:282 | a staged name "<session>-<name>" splits back into the session prefix and the file name |
| `SaveFiles.FlagFileOf` | web/image_processing_view/run_gpu_python_code.php:353-355 | the decoded flag file reports success iff "image_processing_success" is present and is the integer 1 |
| `Utils.BinToHex` | web/utils_php/utils.php:104 | bin2hex yields two lower-case hex digits per byte |
| `Utils.HexValue` | web/utils_php/utils.php:104 | a hex digit's value indexes back to that digit; any other character has none |
| `Utils.HexRoundTrip` | web/utils_php/utils.php:104 | the random part of an identifier decodes back to the bytes drawn |
| `Utils.Digits` | web/utils_php/utils.php:103 | a zero-padded date field has exactly its width and only decimal digits |
| `Utils.DigitsRoundTrip` | web/utils_php/utils.php:103 | a zero-padded field reads back as the number written when the number fits |
| `Utils.FormatDate` | web/utils_php/utils.php:103 | date('Y_m_d_H_i_s') is 19 characters |
| `Utils.FormatDateRoundTrip` | web/utils_php/utils.php:103 | the formatted date reads back as the same date and time |
| `Utils.GenerateId` | web/utils_php/utils.php:101-109 | an identifier is the random hex digits, "-", the prefix, "-" and the 19-character date |
| `Utils.GenerateIdRoundTrip` | web/utils_php/utils.php:103-105 | an identifier made from 7 random bytes splits back into those bytes, the prefix and the date |
| `Utils.GenerateIdDistinct` | web/utils_php/utils.php:104-105 | identifiers made from different random bytes differ, whatever their prefixes and dates |
| `Utils.WelcomeText` | web/utils_php/utils.php:122-132 | a new log's body holds the project name and the save name at their places after the date |
| `Utils.CopyKnown` | web/utils_php/utils.php:158-164 | exactly the save images the mapping knows are added, with the mapping's names; other entries keep theirs |
| `Utils.CreateNewLookupTable` | web/utils_php/utils.php:149-171 | the new table carries the given ids and names, the template ledger, no CER, and the names of exactly those save images the mapping knows |
| `Utils.LookupTableNamesOnlySaveImages` | web/utils_php/utils.php:158-164 | a new lookup table names no image outside the save or the mapping |
| `Utils.ErrorLogPath` | web/utils_php/utils.php:186-191 | errors go to "<dir>/error.txt" when the directory exists, else to "error.txt" |
| `Utils.ErrorText` | web/utils_php/utils.php:193-199 | the logged text starts with the header and the date; it ends with the session id iff one was given |
| `Utils.RoundTenth` | web/utils_php/utils.php:37-38 | round(n / 10) is within half a unit of n / 10 |
| `Utils.Thumbnail` | web/utils_php/utils.php:18-48 | nothing is done when the thumbnail exists; a non-JPEG/PNG image is refused; a JPEG or PNG under 5 pixels wide or high fails, exactly then, because round(n/10) is 0 and imagecreatetruecolor refuses a zero size; otherwise a thumbnail of round(w/10) x round(h/10), at least 1 x 1, is made |
| `Site.Site.constructor` | web/index.php:464-466 | a project's state starts with the given folder, table, images, saves and GPU temp folder, with no logs and no errors |
| `Site.Site.AppendLog` | web/image_processing_view/run_gpu_python_code.php:248 | appending to a save's log creates it when missing, and changes nothing else |
| `Site.Site.LogError` | web/utils_php/utils.php:184-206 | an error is appended to the error log of the save directory if it exists, else to the working directory's, and nothing else changes |
| `Strings.Basename` | web/project_view/import_save.php:123 | a basename holds no slash |
| `Strings.BasenameOfName` | web/project_view/import_save.php:123 | a name without a slash is its own basename, and the basename keeps the path's extension |
| `Strings.Extension` | web/project_view/upload_images.php:51 | PATHINFO_EXTENSION is free of dots and slashes |
| `Strings.FileName` | web/project_view/import_save.php:167-168 | PATHINFO_FILENAME is free of slashes |
| `Strings.BasenameSplits` | web/index.php:283-284 | a basename with a dot is its file name, a dot and its extension; without one it is its file name and the extension is empty |
| `Strings.LowerChar` | web/project_view/upload_images.php:51 | strtolower changes exactly the ASCII capitals, each to its small letter |
| `Strings.Lower` | web/project_view/upload_images.php:51 | strtolower keeps the length |
| `GpuDispatch.ScriptKind` | web/image_processing_view/run_gpu_python_code.php:51-140 | only "test_few_shot" selects recognition and only "few_shot_train" selects training; any other value selects nothing |
| `GpuDispatch.OneOrZero` | web/image_processing_view/run_gpu_python_code.php:75-80 | a switch always ends as 0 or 1, and is 1 iff the input is identical to the integer 1 |
| `GpuDispatch.StringParam` | web/image_processing_view/run_gpu_python_code.php:117-119 | a kept parameter is read as a string only when it is one |
| `GpuDispatch.ChecksDetermineParameters` | web/image_processing_view/run_gpu_python_code.php:51-134 | any parameter set that keeps each admissible value as sent, drops each inadmissible one and stores both switches as 0/1 is the rebuilt parameter set of that kind |
| `GpuDispatch.RebuiltAgreesAt` | web/image_processing_view/run_gpu_python_code.php:51-134 | per parameter, keeping it as sent iff admissible agrees with the rebuilt set |
| `GpuDispatch.ReconstructParameters` | web/image_processing_view/run_gpu_python_code.php:51-134 | shots kept iff an int in [1,5], threshold iff numeric in [0.01,1], alphabet iff in the five alphabets, epochs (training) iff an int in [1,20]; the switches end as 0/1; no other key is kept |
| `GpuDispatch.KeepCommonParameters` | web/image_processing_view/run_gpu_python_code.php:95-115 | the five parameters both kinds share are each kept as sent iff admissible, and nothing else is added |
| `GpuDispatch.KeepTrainingParameters` | web/image_processing_view/run_gpu_python_code.php:117-123 | the new model's name is kept iff a string, the epochs iff an int in [1,20], each as sent; no other parameter changes |
| `GpuDispatch.KeepIfAdmissible` | web/image_processing_view/run_gpu_python_code.php:53-59 | a parameter is stored as sent iff admissible, otherwise left as it was; no other parameter changes |
| `GpuDispatch.NewModelKey` | web/image_processing_view/run_gpu_python_code.php:147-159 | no model gives no key; a non-base model is its own key; a base model's key starts with "<alphabet>_" and ends with the session id |
| `GpuDispatch.NewModelKeyFresh` | web/image_processing_view/run_gpu_python_code.php:148-154 | for a base model, two sessions give the same key iff they are the same session |
| `GpuDispatch.VocabularyIsLowerCase` | web/image_processing_view/run_gpu_python_code.php:61-65 | every alphabet and base model is a lower-case word |
| `GpuDispatch.LowerCaseHasNoFlag` | web/image_processing_view/run_gpu_python_code.php:152-153 | a lower-case word cannot contain "RESIZE_FLAG" |
| `GpuDispatch.FlaggedKey` | gpu/gpu_image_processing_wrapper.py:431 | a key built with "RESIZE_FLAG_" makes training resize |
| `GpuDispatch.UnflaggedKey` | gpu/gpu_image_processing_wrapper.py:182 | a key built without the flag from a lower-case alphabet does not make recognition resize |
| `GpuDispatch.NoBaseHasUnderscore` | gpu/gpu_image_processing_wrapper.py:182 | a key with an underscore is neither base model that resizes |
| `GpuDispatch.ResizingFollowsBase` | web/image_processing_view/run_gpu_python_code.php:147-159 | a model trained from a base model is resized in training and in later recognition exactly when its base model is |
| `GpuDispatch.SendList` | web/image_processing_view/run_gpu_python_code.php:270-279 | the send list is the images followed by the five protocol files, plus generated_transcription.json iff it exists |
| `GpuDispatch.StagedNameInjective` | web/image_processing_view/run_gpu_python_code.php:282 | within one session, staged names of different files differ |
| `GpuDispatch.PushedExactly` | web/image_processing_view/run_gpu_python_code.php:281-289 | every pushed name carries the session prefix, and a file is staged iff it is in the list and could be sent, with its content |
| `GpuDispatch.BuildCommand` | web/image_processing_view/run_gpu_python_code.php:291-302 | the command names the session, the output suffix and the temp folder as working directory |
| `GpuDispatch.CommandNamesStagedFiles` | web/image_processing_view/run_gpu_python_code.php:291-302 | every path in the command is a staged file of the same session in the temp folder, one the send list holds (or generated_transcription.json, which the worker creates) |
| `GpuDispatch.MarkedTable` | web/image_processing_view/run_gpu_python_code.php:189-242 | the stored lookup table marks the kind in flight under the session and changes nothing else |
| `GpuDispatch.PreparedDir` | web/image_processing_view/run_gpu_python_code.php:242-268 | before sending, the save holds the marked table, a 0 success flag and the parameters file, and every other file is untouched |
| `GpuDispatch.StartEntry` | web/image_processing_view/run_gpu_python_code.php:245-248 | the start entry of a run: the job's start line, then one line per parameter in the order of `$log_exec_parameters` |
| `GpuDispatch.LoggedParamsOfKind` | web/image_processing_view/run_gpu_python_code.php:196-230 | the entry lists each parameter the run reads exactly once, except the selected model's key, whose user-given name is listed instead |
| `GpuDispatch.ParameterLineAsSent` | web/image_processing_view/run_gpu_python_code.php:196-230 | one parameter's line shows its sent value when it passed its check and an empty value when it was dropped; a flag shows yes iff the request sent the integer 1 |
| `GpuDispatch.StartEntryShowsKept` | web/image_processing_view/run_gpu_python_code.php:187-248 | a remote run's start entry is the start line followed by every logged parameter as sent, or empty when the allow-list dropped it |
| `GpuDispatch.Rebuilt` | web/image_processing_view/run_gpu_python_code.php:51-134 | the stored parameters as the allow-list defines them; `GpuDispatch.ChecksDetermineParameters` proves it is the only map meeting the per-key checks |
| `GpuDispatch.StatusOf` | web/image_processing_view/run_gpu_python_code.php:20-468 | the HTTP status each way out of the dispatcher answers: 400 for the refusals, 200 for a completion or an error the catch-all logs, 502 for a failed run or transfer, 500 for missing results, 504 for a timeout |
| `GpuDispatch.PullResults` | web/image_processing_view/run_gpu_python_code.php:361-369 | outputs are received in order and each stops the chain when missing: boxes, then transcription, then generated transcription; other files are untouched |
| `GpuDispatch.CerLines` | web/image_processing_view/run_gpu_python_code.php:388-397 | one CER line is logged iff a training run validates: the report when present, else the "missing" line |
| `GpuDispatch.Adopted` | web/image_processing_view/run_gpu_python_code.php:385-411 | the save adopts the remote ledger; an entry it reports finished becomes idle; the other kind is the remote's |
| `GpuDispatch.FirstFailure` | web/image_processing_view/run_gpu_python_code.php:281-289 | the first file of the send list that cannot be sent, or the list's length |
| `GpuDispatch.Prepare` | web/image_processing_view/run_gpu_python_code.php:242-268 | the save becomes the prepared directory and its log gets the start entry: the start line, then one line per logged parameter as stored; nothing else changes |
| `GpuDispatch.Stage` | web/image_processing_view/run_gpu_python_code.php:281-289 | the files before the first failed transfer are staged under the session, and nothing after it; `ok` holds iff every file was sent; one 502 error is logged iff a transfer failed |
| `GpuDispatch.PushedStep` | web/image_processing_view/run_gpu_python_code.php:282 | sending one more file adds exactly its staged copy |
| `GpuDispatch.Collect` | web/image_processing_view/run_gpu_python_code.php:317-438 | 504 on timeout, 500 without a flag or with outputs missing (results already pulled stay), 502 with a failure log on a failure flag; on success outputs are adopted, the ledger is adopted and cleared, the CER and finish lines logged, and a new model registered if absent |
| `GpuDispatch.ReadFlag` | web/image_processing_view/run_gpu_python_code.php:340-438 | the flag decides between failure (502 and a log line) and adoption of the outputs |
| `GpuDispatch.Adopt` | web/image_processing_view/run_gpu_python_code.php:357-422 | outputs are pulled first; a missing one gives 500 with the pulled files kept; otherwise the ledger is adopted and the registry updated |
| `GpuDispatch.PulledTable` | web/image_processing_view/run_gpu_python_code.php:357-370 | pulling the outputs keeps the save's lookup table |
| `GpuDispatch.PulledOutputs` | web/image_processing_view/run_gpu_python_code.php:357-422 | with all outputs present, the pulled save holds the received boxes, transcription and generated files and the new table, and no parameters or flag file |
| `GpuDispatch.Dispatch` | web/image_processing_view/run_gpu_python_code.php:20-468 | a missing save gives 400 logged to "error.txt"; a bad script key gives 400 before anything is written; a save without its documents crashes with only the uncaught-error record; otherwise the run follows the dispatch relation, only that save changes among the saves, its log gains the start entry and the run's closing lines, and its error log the run's records; the images never change and the HTTP status is always the one the exit stands for |
| `GpuDispatch.Run` | web/image_processing_view/run_gpu_python_code.php:141-463 | a dispatch of a valid kind marks, stages, runs and collects as the dispatch relation states, which gives the save's whole directory per exit (`GpuDispatch.CollectedDir`); a failed transfer ends it with 502, the ledger in flight, and the send-failure and uncaught-error records; otherwise the worker's output is recorded before what the collection logs; the other saves and the images are untouched, the log gains the start entry then the failure line or the CER and finish lines, and the status is the one the exit stands for |
| `GpuDispatch.Execute` | web/image_processing_view/run_gpu_python_code.php:304-463 | after the transfers: the worker's output recorded, its files in the temp folder, and the collection's directory, log lines, error records and registry as the collection relation states |
| `GpuDispatch.RunKeepsOtherFiles` | web/image_processing_view/run_gpu_python_code.php:241-463 | a run touches only the lookup table, the flag, the parameters file and the three result documents of its save; a run that ends before the results are received keeps the result documents too |
| `GpuDispatch.LedgerStaysInFlight` | web/image_processing_view/run_gpu_python_code.php:317-438 | after a timeout, a missing flag, a failure flag or missing outputs the entry stays in flight under the session and no model is registered |
| `GpuDispatch.CompletedRunCloses` | web/image_processing_view/run_gpu_python_code.php:400-422 | a completed run whose remote ledger reports finished answers 200, leaves the entry idle and, for training, registers the key while keeping every earlier registration |
| `Sweep.SweepReadsWorkerOutputs` | web/index.php:281-289 | the names the sweep asks for ("<session>-<base>_output.json") are exactly the worker outputs the dispatcher receives |
| `Sweep.ReceiveChain` | web/index.php:281-292 | the receive loop pulls the four files in order, each into its temporary copy |
| `Sweep.RenameChain` | web/index.php:301-307 | the rename loop moves the three result copies into place and never renames over lookup_table.json |
| `Sweep.TmpNotProtocol` | web/index.php:276 | a temporary copy's name is never one of the protocol files' names |
| `Sweep.TmpNotImage` | web/index.php:251 | protocol files and their temporary copies are never images |
| `Sweep.PulledFile` | web/index.php:281-292 | a temporary copy exists iff the worker left the file, with its content, and the real file is untouched by the receive |
| `Sweep.RenamedFile` | web/index.php:301-307 | a present copy replaces its result file and disappears; an absent one leaves the result file as it was; the ledger and its copy are untouched |
| `Sweep.RecognitionAdopts` | web/index.php:297-320 | when the pulled ledger reports recognition finished, the pulled results replace the save's, missing ones leave the old file, the entry is closed, the transfer is logged, and no temporary copy of a result or of the ledger remains |
| `Sweep.StagedNameInjectiveOn` | web/index.php:289 | the four temporary copies of one attempt have distinct names |
| `Sweep.RecognitionWaits` | web/index.php:281-320 | when the job is not done, the table, the log and the protocol files stay as they were, the temporary result copies stay behind and the pulled ledger is removed |
| `Sweep.TrainingCloses` | web/index.php:324-383 | a finished training closes the entry (forgetting key and name), registers the model only when its key is new, logs the CER and which case happened, and leaves the result files alone |
| `Sweep.TrainingWaits` | web/index.php:324-383 | when training is not awaited or not done, nothing is logged, the registry is unchanged and the protocol files are untouched |
| `Sweep.ReceiveKeepsImages` | web/index.php:281-292 | receiving never adds or removes a save image |
| `Sweep.RenameEachKeepsImages` | web/index.php:301-307 | renaming never adds or removes a save image |
| `Sweep.RecognitionSettles` | web/index.php:274-322 | after the recognition attempt the images, the image mapping and the training entry are unchanged and the recognition entry no longer awaits a job the GPU server reports finished |
| `Sweep.TrainingSettles` | web/index.php:324-385 | after the training attempt the images, the image mapping and the recognition entry are unchanged and the training entry no longer awaits a finished job |
| `Sweep.BackfillIdempotent` | web/index.php:257-269 | backfilling an image mapping twice is backfilling it once |
| `Sweep.VisitSettles` | web/index.php:239-393 | every save the sweep visits without dying ends settled: table decodable, mapping backfilled, nothing finished left unclosed |
| `Sweep.VisitQuiet` | web/index.php:239-393 | visiting a settled save logs nothing, registers nothing and leaves its protocol files as they were |
| `Sweep.SweepFrame` | web/index.php:217-239 | the sweep keeps the set of sub-directories and does not touch "thumbnails" or anything outside the listing |
| `Sweep.VisitKeepsNames` | web/index.php:353-356 | a visit only adds registry keys and never renames a registered model |
| `Sweep.SweepRegistryGrows` | web/index.php:239-396 | over the whole sweep the registry only grows and keeps every name |
| `Sweep.SweepSettles` | web/index.php:239-396 | a sweep that does not die leaves every listed save settled |
| `Sweep.SweepQuiet` | web/index.php:239-396 | a sweep over settled saves does not die, logs nothing, registers nothing and changes no protocol file |
| `Sweep.SweepIdempotent` | web/index.php:212-396 | a second sweep after one that did not die changes no log, no registration and no protocol file |
| `Sweep.ListImages` | web/index.php:251 | the listing holds exactly the save's jpg, png and jpeg files |
| `Sweep.BackfillMapping` | web/index.php:257-269 | an empty image mapping is filled with the project's names of exactly the save images it knows |
| `Sweep.ReceiveFiles` | web/index.php:281-292 | the receive loop's result is the chained receive of the four files |
| `Sweep.RenameFiles` | web/index.php:301-307 | the rename loop's result is the chained rename of the three result files |
| `Sweep.Recognize` | web/index.php:274-322 | the recognition attempt's result is the recognition step |
| `Sweep.VisitDir` | web/index.php:249-393 | one save's visit: a missing table is recreated, an undecodable one makes the page die, otherwise backfill, then recognition, then training |
| `Sweep.Visit` | web/index.php:239-393 | one save's visit as a value: None when the page dies on an undecodable table, else the directory, log lines and registry after it; `Sweep.VisitSettles` and `Sweep.VisitQuiet` state its properties |
| `Sweep.SweepAll` | web/index.php:212-396 | the sweep over the listing as a value, stopping at the first visit that dies; `Sweep.SweepSettles`, `Sweep.SweepQuiet` and `Sweep.SweepIdempotent` state its properties |
| `Sweep.VisitSave` | web/index.php:239-395 | the site changes exactly as the visit says (the log is written only when a line is added), and dies iff the visit does |
| `Sweep.SweepSaves` | web/index.php:212-396 | the sweep changes the saves, logs and registry exactly as the sweep function says, and nothing else |
| `ProjectView.MigrateChangesOnlyOldLayout` | web/index.php:480-496 | the migration changes a table iff it still has the old layout, leaves none behind, and a second migration changes nothing |
| `ProjectView.MigrateKeeps` | web/index.php:482-492 | migration moves "project_name" to the user-given name, adds empty mappings only when the registry is missing, and keeps the id and any existing mappings |
| `ProjectView.Migrate` | web/index.php:480-496 | the backward-compatible migration; `ProjectView.MigrateChangesOnlyOldLayout` and `ProjectView.MigrateKeeps` prove what it changes and keeps |
| `ProjectView.Opened` | web/index.php:475-508 | the page's table: the stored one migrated, or the template with the project id and the database's name |
| `ProjectView.Named` | web/index.php:510-522 | the name step: a database name fills an empty stored name, otherwise an empty name falls back to the project id; `ProjectView.NameSettled` states the outcome |
| `ProjectView.NameSettled` | web/index.php:510-522 | after opening, the user-given name is set; it is empty iff it was empty and no database name came; the page's name is empty only when the database name replaced an empty one; an existing name is kept with the table unchanged |
| `ProjectView.PreparedHasMappings` | web/index.php:475-508 | an opened table always has both mappings, and a stored registry is kept |
| `ProjectView.PathsSnoc` | web/index.php:539 | the incoming paths of a longer list are the earlier ones plus the last one |
| `ProjectView.CopyIncomingFiles` | web/index.php:537-558 | the copy loop adds exactly the incoming images that exist in the uploads and are not yet in the project, and the mapping gains exactly the incoming paths |
| `ProjectView.Globbed` | web/index.php:534 | exactly the folder's files whose names end in .jpg, .png or .jpeg, case-sensitively |
| `ProjectView.CopiedUnlessListed` | web/index.php:534-549 | an uploaded incoming file is copied iff it is not an image file already in the folder; a file without an image extension is always copied |
| `ProjectView.ReloadCopiesNoImage` | web/index.php:534-558 | a second load with the same incoming list copies no image file and leaves the folder's files and its listed images as the first load left them |
| `ProjectView.CopyIncomingKeeps` | web/index.php:553-556 | a mapped image that is not copied keeps its name |
| `ProjectView.CopyIncomingNames` | web/index.php:543-556 | an incoming image that is copied, or not yet named, ends with the incoming name |
| `ProjectView.NameByPathNamesAll` | web/index.php:573-584 | after the thumbnail loop every project image is named; existing names stay; a new one is named by its path; doing it again changes nothing |
| `ProjectView.RecopiedNamed` | web/index.php:543-552 | a file a second load copies again gets back the name the first load gave it |
| `ProjectView.RecopyKeepsMapping` | web/index.php:540-558 | on a second load with the same incoming list, the copy loop leaves the first load's image mapping unchanged |
| `ProjectView.ReloadIsStable` | web/index.php:534-584 | loading the page again with the same incoming list leaves the folder's files and the image mapping exactly as the first load left them |
| `ProjectView.FinalTableAsWritten` | web/index.php:586 | the page writes back its own copy of the table, read before the sweep |
| `ProjectView.RegistrationLost` | web/index.php:586 | a model the sweep registered on disk is missing from the table the page writes back |
| `ProjectView.FinalTable` | web/index.php:586 | the written table takes the page's names and mappings and the registry on disk |
| `ProjectView.FinalTableKeepsRegistrations` | web/index.php:586 | the corrected write keeps every registration made on disk and the page's own fields |
| `ProjectView.OpenTable` | web/index.php:475-522 | the project table becomes the opened and named table, and nothing else changes |
| `ProjectView.CopyImages` | web/index.php:534-558 | the folder's files and the returned mapping are those of the copy loop run against the folder's globbed image files, and nothing else changes |
| `ProjectView.NameByPathStep` | web/index.php:579-582 | naming one more image adds it under its path only when it has no name |
| `ProjectView.OneThumbnail` | web/utils_php/utils.php:18-48 | the call throws iff no thumbnail exists and the image is neither JPEG nor PNG or is under 5 pixels wide or high; otherwise it is there afterwards; existing thumbnails are untouched |
| `ProjectView.ThumbnailsForStep` | web/index.php:573-584 | one more thumbnailed image keeps the loop invariant |
| `ProjectView.ThumbnailLoop` | web/index.php:570-584 | the page dies iff some image's thumbnail throws (no thumbnail yet, and not a JPEG/PNG or under 5 pixels in a dimension); thumbnails are only added; when it survives every image has a thumbnail and a name |
| `ProjectView.Sync` | web/index.php:561-566 | outside a local deployment the saves, logs and registry become exactly the sweep's (`Sweep.SweepAll`) and the page dies iff the sweep does; a local page changes nothing; the save set, the thumbnails folder and every registration are kept |
| `ProjectView.WithThumbnails` | web/index.php:524-527 | the thumbnails folder is added when missing, and every existing sub-directory is kept |
| `ProjectView.OpenProject` | web/index.php:475-558 | the table opened and named, the thumbnails folder created when missing, the incoming files copied against the globbed listing; logs, errors and the GPU server untouched |
| `ProjectView.WriteThumbnails` | web/index.php:570-584 | the thumbnail loop on the project's folder: it dies iff some globbed image throws, only the thumbnails folder changes, existing thumbnails are kept and new ones are a tenth of their image |
| `ProjectView.PageLoad` | web/index.php:437-587 | an empty project id gives 404 and changes nothing; otherwise the table is opened, incoming files copied against the globbed image listing, the sweep run, and thumbnails made for the globbed images only; the page answers 500 iff the sweep dies or a globbed image without a thumbnail throws, and 200 otherwise; the saves, logs and registry are the sweep's with the thumbnails folder only gaining thumbnails, the save set gains only "thumbnails"; on 200 the written table's image mapping is the `ProjectView.Loaded` gallery's (whose reload stability `ProjectView.ReloadIsStable` proves), and (corrected write) the written table keeps the sweep's registrations |
| `FrozenBoxes.PartitionSnoc` | gpu/gpu_image_processing_wrapper.py:731-736 | one more box goes to the frozen list iff it carries "frozen", and to the regular list otherwise |
| `FrozenBoxes.PartitionLosesNothing` | gpu/gpu_image_processing_wrapper.py:723-736 | the two lists together are a permutation of the image's boxes; regular boxes are never frozen and frozen boxes always are |
| `FrozenBoxes.NothingFrozen` | gpu/gpu_image_processing_wrapper.py:731-736 | without frozen boxes the partition keeps every box in order and sets nothing aside |
| `FrozenBoxes.RestoreMovesFrozenLast` | gpu/gpu_image_processing_wrapper.py:757-763 | re-appending the frozen boxes keeps the boxes as a permutation, and restores the exact list when the frozen boxes were already last |
| `FrozenBoxes.AllFrozenAfter` | gpu/gpu_image_processing_wrapper.py:731-736 | a list whose frozen boxes come last and whose first box is frozen is entirely frozen |
| `FrozenBoxes.SplitBoxes` | gpu/gpu_image_processing_wrapper.py:731-736 | the box loop yields exactly the regular and the frozen boxes, each in their order |
| `FrozenBoxes.RestoreKeepsBoxes` | gpu/gpu_image_processing_wrapper.py:721-763 | set aside and put back untouched, every image keeps its boxes as a permutation, and exactly when nothing was frozen, in order |
| `FrozenBoxes.PartitionFrozen` | gpu/gpu_image_processing_wrapper.py:721-737 | the partition loop over images yields the regular and frozen boxes of every image |
| `FrozenBoxes.RestoreFrozen` | gpu/gpu_image_processing_wrapper.py:757-763 | the restore loop appends each image's frozen boxes after its remaining boxes |
| `GpuWrapper.SplitExtJoins` | gpu/gpu_image_processing_wrapper.py:146 | splitext's root and extension put together give the path back |
| `GpuWrapper.AppendNothing` | gpu/gpu_image_processing_wrapper.py:134-148 | appending nothing leaves a path unchanged |
| `GpuWrapper.OutputPathOfStaged` | gpu/gpu_image_processing_wrapper.py:134-148 | the suffix lands before ".json" of a staged file, giving "<session>-<base>_output.json" in the same folder |
| `GpuWrapper.StagedSplit` | gpu/gpu_image_processing_wrapper.py:134-148 | splitext of a staged "<session>-<base>.json" path splits off exactly ".json" |
| `GpuWrapper.WorkerWritesExpectedOutputs` | gpu/gpu_image_processing_wrapper.py:655-668 | the four output paths the worker derives from the command are the four files the dispatcher and the sweep receive |
| `GpuWrapper.TargetCodeMatchesDispatcher` | gpu/gpu_image_processing_wrapper.py:643-652 | the worker accepts exactly the two script names the dispatcher sends, each for its own kind |
| `GpuWrapper.MagnitudeBounds` | gpu/gpu_image_processing_wrapper.py:221 | floor(log10 n) bounds n between consecutive powers of ten |
| `GpuWrapper.MagnitudeMonotone` | gpu/gpu_image_processing_wrapper.py:262-264 | a smaller line index never has a larger order of magnitude |
| `GpuWrapper.StrInjective` | gpu/gpu_image_processing_wrapper.py:297 | str() of distinct indices gives distinct keys |
| `GpuWrapper.StrParses` | gpu/gpu_image_processing_wrapper.py:297 | the decimal key str(i) reads back as i |
| `GpuWrapper.MergeAlphabet` | gpu/gpu_image_processing_wrapper.py:296-307 | the merge loop yields the merged transcriptions |
| `GpuWrapper.StrFresh` | gpu/gpu_image_processing_wrapper.py:296-307 | the key of index n is not among the keys of the indices below n |
| `GpuWrapper.MergedKeys` | gpu/gpu_image_processing_wrapper.py:296-307 | the merge adds exactly the keys "0" to "n-1" |
| `GpuWrapper.MergedLeavesOthers` | gpu/gpu_image_processing_wrapper.py:296-307 | a key that is not an alphabet index keeps its entry |
| `GpuWrapper.MergedNames` | gpu/gpu_image_processing_wrapper.py:297-307 | key str(i) ends with the i-th symbol, and an entry that already matched is kept whole |
| `GpuWrapper.MergedSetsAlphabet` | gpu/gpu_image_processing_wrapper.py:296-307 | together: the index keys are added and carry the alphabet, matching entries and all other keys are kept |
| `GpuWrapper.MergedFixed` | gpu/gpu_image_processing_wrapper.py:297-303 | transcriptions that already match the alphabet are left exactly as they are |
| `GpuWrapper.MergeIdempotent` | gpu/gpu_image_processing_wrapper.py:296-307 | merging the same alphabet twice is merging it once |
| `GpuWrapper.DigitsOfZero` | gpu/gpu_image_processing_wrapper.py:267 | index 0 padded to width k is k zeros |
| `GpuWrapper.DigitsWiden` | gpu/gpu_image_processing_wrapper.py:267 | padding to a wider width prepends zeros |
| `GpuWrapper.PaddedWidth` | gpu/gpu_image_processing_wrapper.py:262-267 | the padded line index is the index written with as many digits as the line count's order of magnitude plus one |
| `GpuWrapper.LexLessSnoc` | gpu/gpu_image_processing_wrapper.py:269 | string order extends by one more character of equal-length strings |
| `GpuWrapper.DigitsOrder` | gpu/gpu_image_processing_wrapper.py:262-267 | equal-width numerals sort as their numbers |
| `GpuWrapper.LexLessCommonPrefix` | gpu/gpu_image_processing_wrapper.py:269 | a common prefix keeps string order |
| `GpuWrapper.LexLessExtend` | gpu/gpu_image_processing_wrapper.py:269 | a common suffix after equal-length strings keeps string order |
| `GpuWrapper.LineNamesSortInOrder` | gpu/gpu_image_processing_wrapper.py:220-269 | the line file names of one image have equal length and sort by file name in line order |
| `GpuWrapper.RetrainingRefused` | gpu/gpu_image_processing_wrapper.py:439-447 | as written, fine-tuning an existing non-base model always raises, since its own file is the target |
| `GpuWrapper.TrainingGuardIntended` | gpu/gpu_image_processing_wrapper.py:439-447 | the corrected guard agrees with the code for base models and lets a non-base model be retrained in place |
| `GpuWrapper.RefusesTrainingAsWritten` | gpu/gpu_image_processing_wrapper.py:439-447 | as written: training is refused whenever a file exists at the path it writes, which for a non-base model is its own file (`GpuWrapper.RetrainingRefused`) |
| `GpuWrapper.RefusesTraining` | gpu/gpu_image_processing_wrapper.py:439-447 | the corrected guard: only a new model trained from a base model is refused when its file exists (`GpuWrapper.TrainingGuardIntended`) |
| `GpuWrapper.Refusal` | gpu/gpu_image_processing_wrapper.py:400-754 | the error a run raises before its module's outputs are used, in the order main meets them: no GPU, a missing parameter, the training guard (corrected), an empty training text, a module error |
| `GpuWrapper.Work` | gpu/gpu_image_processing_wrapper.py:636-808 | an unknown code raises and writes nothing; a run succeeds iff it writes a ledger; a success writes every image's boxes and sets the success flag to 1; a missing ledger raises after the box files are written; the training guard is the corrected one (see "## Left out") |
| `GpuWrapper.RunWorker` | gpu/gpu_image_processing_wrapper.py:636-808 | main's steps in order give the run the worker function describes, with the corrected training guard |
| `GpuWrapper.SuccessIsAdopted` | gpu/gpu_image_processing_wrapper.py:786-808 | on success the written ledger reports the kind finished, the dispatcher's adoption makes it idle, and the flag is 1 with every other key kept |
| `GpuWrapper.DispatcherSeesOutcome` | gpu/gpu_image_processing_wrapper.py:799-808 | from a flag that started unset, a raising run makes the dispatcher answer 502 and a successful one never 500-for-no-flag or 502 |
| `GpuWrapper.DispatchedParametersWellTyped` | web/image_processing_view/run_gpu_python_code.php:67-69 | the dispatcher's parameters carry the model as a string when they carry it |
| `GpuWrapper.DroppedParameterFailsRun` | gpu/gpu_image_processing_wrapper.py:171-175 | the module finds every parameter it reads iff the request sent each of them admissibly; a dropped parameter fails the run |
| `GpuWrapper.KeptWhenAdmissible` | web/image_processing_view/run_gpu_python_code.php:51-134 | a parameter the module reads is present iff its sent value was admissible |
| `GpuWrapper.TrainingGuards` | gpu/gpu_image_processing_wrapper.py:746-754 | training without a GPU, with a parameter missing, or for a new model from a base model whose file exists raises and writes nothing; a success needs a GPU, a non-empty training text and no module error |
| `GpuWrapper.ModuleErrorWritesNothing` | gpu/gpu_image_processing_wrapper.py:768-775 | a module error raises, writes no output and leaves the flag as staged |
| `GpuWrapper.RunRestoresFrozen` | gpu/gpu_image_processing_wrapper.py:739-763 | every written image ends with its new (recognition) or kept (training) regular boxes followed by its frozen boxes; training keeps the boxes as a permutation |
| `LocalDispatch.PassedThrough` | web/image_processing_view/run_gpu_python_code_local.php:32-33 | the local dispatcher keeps every parameter the request sent, unchecked and unchanged, and no other |
| `LocalDispatch.StartEntryAsPassed` | web/image_processing_view/run_gpu_python_code_local.php:69-120 | a local run's start entry is the start line followed by every logged parameter exactly as sent (empty when absent); a flag shows yes iff the sent value is truthy |
| `LocalDispatch.KeyAsRemote` | web/image_processing_view/run_gpu_python_code_local.php:40-52 | for an admissible or missing alphabet and a string or missing model, the local model key is the one the remote dispatcher derives |
| `LocalDispatch.StagedIsOfSession` | web/image_processing_view/run_gpu_python_code_local.php:131 | an image copy carries the session prefix |
| `LocalDispatch.CopiesKeepOthers` | web/image_processing_view/run_gpu_python_code_local.php:130-133 | copying the images leaves every file without the session prefix as it was |
| `LocalDispatch.CopiesRemoveNothing` | web/image_processing_view/run_gpu_python_code_local.php:130-133 | copying the images removes no file |
| `LocalDispatch.CopiesStageImages` | web/image_processing_view/run_gpu_python_code_local.php:130-133 | every listed image present in the save has a copy "<session>-<image>" with its content |
| `LocalDispatch.TakeOver` | web/image_processing_view/run_gpu_python_code_local.php:190-217 | on success the boxes and transcription are replaced by the worker's outputs (null when missing), the generated transcription only when the worker wrote one, and every other file is kept |
| `LocalDispatch.AfterRun` | web/image_processing_view/run_gpu_python_code_local.php:157-221 | the run ends completed, failed or crashed, and it fails (502) iff the flag file is there and decodes to anything but success 1 |
| `LocalDispatch.StatusOf` | web/image_processing_view/run_gpu_python_code_local.php:14-237 | the HTTP status of each way out of the local dispatcher: 200 for a completion or a caught error, 502 for a failed run, 400 for the refusals |
| `LocalDispatch.SuccessIffFlag` | web/image_processing_view/run_gpu_python_code_local.php:157-187 | completion needs a flag of 1; a failure answers 502, logs the failure line and registers nothing; a flag of 1 with a registry and no validation completes |
| `LocalDispatch.RegistersOnlyIfAbsent` | web/image_processing_view/run_gpu_python_code_local.php:163-172 | registrations are never removed or renamed; a completed training registers its key; recognition and failures leave the registry alone |
| `LocalDispatch.OverwriteOnlyOnSuccess` | web/image_processing_view/run_gpu_python_code_local.php:175-217 | the result files change only on success, and then take the worker's outputs |
| `LocalDispatch.FailedRunKeepsDocuments` | web/image_processing_view/run_gpu_python_code_local.php:175-187 | whatever the worker leaves, a failed run keeps the save's boxes, transcription and generated transcription |
| `LocalDispatch.CopyImages` | web/image_processing_view/run_gpu_python_code_local.php:128-133 | the save becomes the save with the session copies of the images, and nothing else changes |
| `LocalDispatch.Prepare` | web/image_processing_view/run_gpu_python_code_local.php:111-133 | the save gets the 0 flag, the parameters and the image copies, and its log the start entry with every logged parameter as sent |
| `LocalDispatch.Conclude` | web/image_processing_view/run_gpu_python_code_local.php:150-221 | the save, the registry, the log and the error log change exactly as the run's conclusion says |
| `LocalDispatch.Run` | web/image_processing_view/run_gpu_python_code_local.php:111-221 | preparation, the worker's files and the conclusion compose as stated |
| `LocalDispatch.Dispatch` | web/image_processing_view/run_gpu_python_code_local.php:14-237 | a missing save gives 400 logged in the project folder; a bad script key gives 400 with nothing written; an unreadable save crashes with only the uncaught-error record written; otherwise the run concludes as stated |
| `CpuWrapper.ImagesPathIsSaveDir` | web/image_processing_view/image_processing_wrapper.py:51-76 | the images path built from the lookup table is the save directory |
| `CpuWrapper.Work` | web/image_processing_view/image_processing_wrapper.py:30-114 | an unknown code raises; a run writes iff it does not raise; a write sets the flag to 1 keeping its other keys; a module error means no write |
| `CpuWrapper.RunModule` | web/image_processing_view/image_processing_wrapper.py:54-114 | main's steps in order give the run the worker function describes |
| `CpuWrapper.ModuleSeesNoFrozenBox` | web/image_processing_view/image_processing_wrapper.py:56-82 | the module receives every image, and none of its boxes is frozen |
| `CpuWrapper.FrozenBoxesSurvive` | web/image_processing_view/image_processing_wrapper.py:87-100 | every written image is the module's boxes followed by its frozen boxes; no image with frozen boxes is lost |
| `CpuWrapper.IdleModuleKeepsBoxes` | web/image_processing_view/image_processing_wrapper.py:54-100 | a module that changes nothing leaves each image's boxes a permutation of the input, and in order when nothing was frozen |
| `CpuWrapper.FlagTellsOutcome` | web/image_processing_view/image_processing_wrapper.py:93-114 | from an unset flag, the flag reports success iff the run did not raise |
| `AsyncScripts.ScriptOf` | web/image_processing_view/run_async_py_scripts.php:41-111 | only a string script key can select a script |
| `AsyncScripts.ScriptFile` | web/image_processing_view/run_async_py_scripts.php:42-97 | every script the endpoint runs is one the CPU worker knows |
| `AsyncScripts.ScriptsDistinct` | web/image_processing_view/run_async_py_scripts.php:41-105 | different scripts have different files and different log names |
| `AsyncScripts.RebuiltChecked` | web/image_processing_view/run_async_py_scripts.php:41-105 | only checked keys are kept; a switch is always stored as the truthiness of what was sent; an integer parameter is kept iff an int in range, a real one iff numeric in range, each as sent |
| `AsyncScripts.OnlyCheckedKeysMatter` | web/image_processing_view/run_async_py_scripts.php:41-105 | the stored parameters depend only on the checked keys of the request |
| `AsyncScripts.SwitchesAlwaysSent` | web/image_processing_view/run_async_py_scripts.php:45-50 | every segmentation switch is always stored as a boolean, and line segmentation stores exactly "two_segmented_lines" |
| `AsyncScripts.SwitchesStep` | web/image_processing_view/run_async_py_scripts.php:76-83 | one more switch of the loop adds exactly that switch |
| `AsyncScripts.SwitchesAreNotNumbers` | web/image_processing_view/run_async_py_scripts.php:58-74 | no switch name is a range-checked parameter |
| `AsyncScripts.SegmentationKey` | web/image_processing_view/run_async_py_scripts.php:58-83 | per key, the segmentation parameters are the kept numbers plus the switches |
| `AsyncScripts.SegmentationSplits` | web/image_processing_view/run_async_py_scripts.php:58-83 | the segmentation parameters are exactly the kept numbers plus the switches |
| `AsyncScripts.KeepNumbers` | web/image_processing_view/run_async_py_scripts.php:58-72 | the if-chain keeps exactly the admissible numeric parameters |
| `AsyncScripts.SetSwitches` | web/image_processing_view/run_async_py_scripts.php:74-83 | the switch loop adds every switch as a boolean |
| `AsyncScripts.ReconstructSegmentation` | web/image_processing_view/run_async_py_scripts.php:54-85 | the segmentation branch yields the rebuilt parameters |
| `AsyncScripts.Reconstruct` | web/image_processing_view/run_async_py_scripts.php:41-105 | each branch yields its script's rebuilt parameters |
| `AsyncScripts.AfterRun` | web/image_processing_view/run_async_py_scripts.php:143-163 | the run completes iff the flag is exactly 1 and crashes iff the flag is missing or undecodable; a completion logs the finish line, a failure the failure line with 502, a crash nothing; the flag file is removed unless the run crashed |
| `AsyncScripts.UntouchedFlagFails` | web/image_processing_view/run_async_py_scripts.php:126-163 | a worker that never sets the flag leaves the 0 written before the run, so the request fails |
| `AsyncScripts.WorkerOutcomeDecides` | web/image_processing_view/run_async_py_scripts.php:143-147 | the endpoint reports completion iff the CPU worker did not raise |
| `AsyncScripts.Prepare` | web/image_processing_view/run_async_py_scripts.php:113-128 | the save gets the parameters and a 0 flag, and its log the start line; nothing else changes |
| `AsyncScripts.Conclude` | web/image_processing_view/run_async_py_scripts.php:137-163 | the save, the log and the error log change exactly as the conclusion says |
| `AsyncScripts.Run` | web/image_processing_view/run_async_py_scripts.php:113-163 | preparation, the worker's files and the conclusion compose as stated |
| `AsyncScripts.Dispatch` | web/image_processing_view/run_async_py_scripts.php:11-177 | a missing save gives 400 logged in the project folder; a bad script key gives 400 with nothing written; otherwise the rebuilt parameters are run and concluded |
| `UploadImages.Generated` | web/project_view/upload_images.php:48-52 | every uploaded file gets exactly one generated name, in upload order |
| `UploadImages.Entries` | web/project_view/upload_images.php:50-56 | the loop sees each upload, in order, as its user-given name and whether it passes the test of line 56 (a .jpg or .png, lower-cased, under 50 MB) |
| `UploadImages.GeneratedDistinct` | web/project_view/upload_images.php:52 | two files whose generate_id drew different random bytes get different names, whatever their indices, extensions and clock readings |
| `UploadImages.StepAt` | web/project_view/upload_images.php:50-66 | one file of the loop: after a throw nothing changes; only an accepted file's thumbnail can throw; an accepted file is named, moved and (unless it throws) mapped under its generated name; a rejected file is listed in the errors; no other key changes |
| `UploadImages.Step` | web/project_view/upload_images.php:50-66 | one file of the upload loop as a value; `UploadImages.StepAt` states what it does |
| `UploadImages.Tallied` | web/project_view/upload_images.php:48-67 | the loop as a fold of the steps; `UploadImages.AcceptedFileNamed`, `UploadImages.RejectedFileListed` and `UploadImages.CrashSticks` state its properties |
| `UploadImages.CrashSticks` | web/project_view/upload_images.php:48-67 | a loop that ends without a throw had not thrown after any prefix of the files |
| `UploadImages.ThrownStays` | web/project_view/upload_images.php:48-67 | once a thumbnail has thrown, the files after it change nothing |
| `UploadImages.AcceptedFileNamed` | web/project_view/upload_images.php:56-62 | with distinct generated names and no throw, every accepted file is in the reply's names and in the mapping under its generated name, with the name the user gave it, and is moved into the project folder |
| `UploadImages.EarlierAcceptedFileNamed` | web/project_view/upload_images.php:56-62 | the same for every accepted file but the last, which the induction of the previous row needs |
| `UploadImages.RejectedFileListed` | web/project_view/upload_images.php:64-66 | a rejected file (wrong extension or 50 MB or more) is never named or mapped, and is listed in the errors when the loop does not throw |
| `UploadImages.NeverNamed` | web/project_view/upload_images.php:59-62 | a name the loop did not generate never enters the reply's names or the mapping |
| `UploadImages.MappingOnlyGrows` | web/project_view/upload_images.php:62 | every mapping entry present before the loop stays, unchanged unless an accepted file reuses its key; every new error is the generated name of a rejected file |
| `UploadImages.NoCrashForImages` | web/project_view/upload_images.php:60 | when every moved file is a JPEG or PNG of at least 5 x 5 pixels, the loop never throws |
| `UploadImages.TinyImageThrows` | web/project_view/upload_images.php:56-62 | an accepted JPEG or PNG under 5 pixels wide or high with no thumbnail makes the loop throw: it is moved and reported but never mapped, and no thumbnail is added |
| `UploadImages.UploadLoop` | web/project_view/upload_images.php:48-67 | the loop's result is the fold of the steps over the files; the project folder gains exactly the moved images; the thumbnails folder, where it exists, ends as the loop's thumbnails; nothing else changes |
| `UploadImages.UploadOne` | web/project_view/upload_images.php:50-66 | one turn of the loop is one step: an accepted file is moved in and its thumbnail made (or the loop throws, for a non-JPEG/PNG or an image under 5 pixels in a dimension), the thumbnails folder, where it exists, becoming the step's thumbnails; nothing else changes |
| `UploadImages.UploadImages` | web/project_view/upload_images.php:12-82 | 400 iff not a POST, no project id, no project folder or no files, each with its error record (none for the first two) and nothing changed; otherwise 200 with the loop's images moved in and their thumbnails in the thumbnails folder where it exists; a throw, including the zero-size thumbnail of an image under 5 pixels, logs an uncaught error and replies nothing; else the mapping is written once and the reply holds the errors, the names and the new table |
| `ImportSave.SaveMapping` | web/project_view/import_save.php:81-108 | the save's mapping exists iff the archive carries a mapping or a documents list; every entry names a file; a legacy archive maps each document to itself |
| `ImportSave.SaveMappingAsWritten` | web/project_view/import_save.php:99-101 | as written, a legacy archive maps each document to the undefined `$img_name`, that is to no file name at all |
| `ImportSave.MergeOnlyAdds` | web/project_view/import_save.php:87-92 | merging into the project's mapping keeps every existing entry unchanged and adds each new key with the value it first comes with, and nothing else |
| `ImportSave.MergeIntoProject` | web/project_view/import_save.php:83-108 | the merge throws iff the project has no mapping and the archive has entries; otherwise the project's mapping is the merge, or stays missing |
| `ImportSave.FirstPath` | web/project_view/import_save.php:128-136 | the path found for a zip entry is the first mapping entry whose file name is that entry; none when no entry matches |
| `ImportSave.TargetWhitelisted` | web/project_view/import_save.php:113-140 | an entry is extracted iff it is a .txt (kept under its basename) or a .jpg/.png named by the mapping (stored under the basename of its path); nothing else leaves the archive |
| `ImportSave.Target` | web/project_view/import_save.php:113-140 | where one zip entry lands, if anywhere; `ImportSave.TargetWhitelisted` states the whitelist |
| `ImportSave.Targets` | web/project_view/import_save.php:113-142 | the extraction decides one target per zip entry |
| `ImportSave.LandedKeys` | web/project_view/import_save.php:113-142 | after extraction a file is in the temp folder only if it was there or an entry lands on it; when no entry of that name is renamed elsewhere, exactly then; and such a file no entry lands on keeps its content |
| `ImportSave.ExtractedKeys` | web/project_view/import_save.php:113-142 | the same for the extraction of the archive's entries under the save's mapping: only whitelisted entries land, and every landing survives unless a later entry of the same name is renamed away |
| `ImportSave.LandedSnoc` | web/project_view/import_save.php:113-142 | one more entry that lands is extracted under its own name and renamed onto its target (so its own name is gone unless it is the target); one that does not land changes nothing |
| `ImportSave.ExtractEntries` | web/project_view/import_save.php:113-142 | the loop extracts each landing entry under its own name and then renames it, leaving the temp folder the extraction describes |
| `ImportSave.ExtractRenamed` | web/project_view/import_save.php:121-122 | extractTo then rename: the target holds the entry's content, the entry's own name is gone unless it is the target, every other file is unchanged |
| `ImportSave.LandedLoses` | web/project_view/import_save.php:113-142 | a file is lost when the last entry to touch its name is one extracted under that name and renamed elsewhere |
| `ImportSave.CrossedNamesLoseFile` | web/project_view/import_save.php:113-142 | with the mapping {y: x, z: y} and the entries x then y, y is extracted over the file x landed as and renamed to z: z holds y's content and y is gone |
| `ImportSave.BoxesEntryStays` | web/project_view/import_save.php:115-117 | bounding_boxes.json is never let through by the extraction, so no entry of that name is renamed away |
| `ImportSave.EntryTarget` | web/project_view/import_save.php:115-138 | the branch on one entry's extension picks the entry's target |
| `ImportSave.FindPath` | web/project_view/import_save.php:128-137 | the inner loop with its break finds the first matching path |
| `ImportSave.MissingOf` | web/project_view/import_save.php:149-157 | an image is reported missing iff the documents list it and the temp folder lacks it; nothing is missing iff every document is there |
| `ImportSave.FindMissing` | web/project_view/import_save.php:149-157 | the loop collects exactly the missing images |
| `ImportSave.TextsOfKeys` | web/project_view/import_save.php:165-178 | a text is collected for a path iff a mapping entry has that path and the temp folder holds "<file stem><suffix>" |
| `ImportSave.TextsOfLast` | web/project_view/import_save.php:165-178 | the last mapping entry adds its path exactly when its text file is in the folder |
| `ImportSave.CollectTexts` | web/project_view/import_save.php:162-178 | the loop collects the generated and the post-processed texts as described |
| `ImportSave.WithTexts` | web/project_view/import_save.php:181-187 | each transcription file is written iff some text was collected for it; every other file is kept and nothing else is added |
| `ImportSave.WithoutTxt` | web/project_view/import_save.php:190 | exactly the .txt files are deleted, and the rest keep their content |
| `ImportSave.KnownOfListed` | web/project_view/import_save.php:196-198 | the lookup table's names for the images found by the glob are the save mapping's names for the folder's images |
| `ImportSave.CompletedFiles` | web/project_view/import_save.php:181-200 | the stored save holds the lookup table, each transcription file for which a text was found, and every extracted file that is not a .txt, and nothing else |
| `ImportSave.Completed` | web/project_view/import_save.php:181-200 | the folder that becomes the save; `ImportSave.CompletedFiles` and `ImportSave.CompletedKeeps` state what it holds |
| `ImportSave.Outcome` | web/project_view/import_save.php:11-244 | 400 iff no file was uploaded; a zip of 50 MB or more is refused, an unopenable one is answered and logged, one without both JSON files is refused; a save is stored only from an opened archive holding both JSON files |
| `ImportSave.Unpacked` | web/project_view/import_save.php:59-211 | the answer is 200; unreadable JSON throws, and so does an archive with entries for a project without a mapping; otherwise the entries are extracted under the corrected legacy mapping and the extraction is concluded |
| `ImportSave.Concluded` | web/project_view/import_save.php:147-209 | the save is stored iff every listed document was extracted, with the completed folder and the welcome log; otherwise the user is told images are missing; no documents list throws |
| `ImportSave.Import` | web/project_view/import_save.php:11-244 | the request's status, reply, saves, error log and logs are as the outcome says, and the project table, images and remote are unchanged |
| `ImportSave.Unpack` | web/project_view/import_save.php:59-211 | the reply, the saves (new save stored, temporary folder removed or left after a throw), the error log and the logs are those of `Unpacked` for the archive; the project table, images and remote are unchanged |
| `ImportSave.Conclude` | web/project_view/import_save.php:147-230 | the reply, the saves, the error log and the logs are those of `Concluded`: no documents list throws and leaves the temporary folder, a missing image removes it and tells the user, and a complete extraction becomes the new save with its welcome log |
| `ImportSave.Finish` | web/project_view/import_save.php:161-204 | a complete import stores the completed folder under the new save id, removes the temp folder, starts the save's log with the welcome line and replies with the log text and the new table |
| `ImportSave.TempRemoved` | web/project_view/import_save.php:200 | moving the temp folder to the save id leaves no temp folder behind |
| `ImportSave.ImportedSaveWhitelisted` | web/project_view/import_save.php:111-200 | an imported save holds only the bookkeeping and JSON files and the whitelisted extractions, and no .txt file |
| `ImportSave.StoredBoxesAsArchived` | web/project_view/import_save.php:77-94 | the stored boxes file is the archive's own, mapping included: the in-memory unset at line 94 is never written back |
| `ImportSave.SavedFolder` | web/project_view/import_save.php:77-200 | a save the import creates is the completed extraction folder, and the archive's boxes document lists documents |
| `ImportSave.CompletedKeeps` | web/project_view/import_save.php:159-198 | a folder file that is no text file and none the import writes is saved unchanged |
| `ImportSave.LegacyImportRefusedAsWritten` | web/project_view/import_save.php:96-159 | as written, a legacy archive with any image document is always refused as missing images |
| `ImportSave.LegacyTarget` | web/project_view/import_save.php:113-137 | under the intended legacy mapping each image document in the archive is extracted under its own name |
| `ImportSave.LegacyImportAccepted` | web/project_view/import_save.php:96-159 | under the intended legacy mapping, an archive holding all its image documents has nothing missing |
| `ImportSave.LegacyArchiveImported` | web/project_view/import_save.php:52-206 | under the intended legacy mapping, a small legacy archive with both JSON files and all its images is imported |
| `ClientChecks.JsonReal` | web/image_processing_view/image_processing.js:395-414 | a parsed real is sent as that number, and NaN (no number) goes out as null |
| `ClientChecks.JsonInt` | web/image_processing_view/image_processing.js:394-413 | a parsed integer is sent as that integer, and NaN goes out as null |
| `ClientChecks.RegularEmpty` | web/image_processing_view/image_processing.js:325-329 | an image has no regular box iff all its boxes are frozen |
| `ClientChecks.FindUnsegmented` | web/image_processing_view/image_processing.js:319-331 | the loop over the images reports an image without regular boxes iff there is one |
| `ClientChecks.LineOutcomeChecked` | web/image_processing_view/image_processing.js:313-349 | line segmentation is sent iff the one-line setup is chosen or every image has a regular box; otherwise the user gets the line warning; what is sent selects line segmentation on the server, which keeps exactly the chosen setup |
| `ClientChecks.RequestLineSegmentation` | web/image_processing_view/image_processing.js:313-349 | the handler's check and payload give the outcome described |
| `ClientChecks.SegmentationOutcome` | web/image_processing_view/image_processing.js:689-712 | segmentation is sent iff the three integers are in 1..500, 1..100 and 1..200; a bad minimum distance gets its own warning first |
| `ClientChecks.SegmentationKeptAt` | web/image_processing_view/image_processing.js:714-727 | the server keeps a parameter of the payload, unchanged, iff it is one it checks and, for the three integers, iff the client's range held |
| `ClientChecks.SwitchKept` | web/image_processing_view/image_processing.js:714-727 | every checkbox of the segmentation form is kept by the server as the boolean sent |
| `ClientChecks.NumberKept` | web/image_processing_view/image_processing.js:714-727 | a number of the segmentation form is kept, as sent, iff its range held |
| `ClientChecks.SegmentationChecksAgree` | web/image_processing_view/image_processing.js:693-727 | the client sends segmentation iff the server keeps every parameter it checks: the two sides' ranges agree |
| `ClientChecks.SegmentationSelected` | web/image_processing_view/image_processing.js:715 | the payload selects the segmentation script on the server |
| `ClientChecks.SegmentationKeptAsSent` | web/image_processing_view/image_processing.js:714-727 | a payload the client sends reaches the worker unchanged, save the script key |
| `ClientChecks.SegmentationValuesKept` | web/image_processing_view/image_processing.js:714-727 | whatever the server keeps of the segmentation payload it keeps as sent |
| `ClientChecks.SegmentationPayloadKeys` | web/image_processing_view/image_processing.js:714-727 | the payload carries exactly the parameters the server checks, plus the script key |
| `ClientChecks.ScriptNameNotChecked` | web/image_processing_view/image_processing.js:714-727 | the script key is none of the segmentation's parameters |
| `ClientChecks.ClusteringChecksAgree` | web/image_processing_view/image_processing.js:768-791 | clustering is sent iff the server keeps minImages; otherwise the user gets the minImages warning; what is sent is kept as sent |
| `ClientChecks.PropagationChecksAgree` | web/image_processing_view/image_processing.js:826-849 | label propagation is sent iff the server keeps alpha; otherwise the user gets the alpha warning; what is sent selects label propagation |
| `ClientChecks.PredictionOutcome` | web/image_processing_view/image_processing.js:397-419 | a prediction that passes is sent with the form as read |
| `ClientChecks.PredictionChecksAgree` | web/image_processing_view/image_processing.js:397-409 | a prediction is sent iff the dispatcher admits its shots and threshold; the threshold warning comes before the shots warning |
| `ClientChecks.NameOf` | web/image_processing_view/image_processing.js:534-540 | a base model trains under the name typed in; retraining a registered model reuses its registered name |
| `ClientChecks.TrainingChecked` | web/image_processing_view/image_processing.js:531-574 | training is sent iff the name is not empty, a new model's name is not taken and the dispatcher admits the epochs; it always sends 5 shots, threshold 0.4 and no spaces, which the dispatcher admits |
| `ClientChecks.TrainingOutcome` | web/image_processing_view/image_processing.js:531-574 | the training handler's decision; `ClientChecks.TrainingChecked` and `ClientChecks.NewModelNameFresh` state when it sends and under which name |
| `ClientChecks.NewModelNameFresh` | web/image_processing_view/image_processing.js:542-554 | a new model is sent only under a non-empty name no fine-tuned model has |
| `ClientChecks.RetrainingKeepsRegisteredName` | web/image_processing_view/image_processing.js:538-561 | retraining a registered model with a valid epoch count is always sent, under the registered name |
| `ClientChecks.DispatcherStatusesRead` | web/image_processing_view/image_processing.js:433-459 | each GPU dispatcher outcome is read as the message meant for it: success and an error the catch-all logs with status 200 pass; 504 is a timeout; 502 is a failed run or a failed transfer to the GPU server; 500 is results missing; 400 is an unhandled network error |
| `ClientChecks.ResponseError` | web/image_processing_view/image_processing.js:433-459 | what the response handler throws for a status: nothing for 2xx, the transfer, failure and timeout messages for 500, 502 and 504, and an unhandled network error otherwise |
| `ClientChecks.RadioIdInjective` | web/image_processing_view/image_processing.js:117-127 | two model keys give the same radio id iff they are the same key |
| `ClientChecks.RadiosOf` | web/image_processing_view/image_processing.js:116-124 | one radio per added model, in order, with the model's key as id and value and its name as caption |
| `ClientChecks.AddedOnce` | web/image_processing_view/image_processing.js:113-133 | no model already listed is added; no model is added twice; every model ends up listed; only models of the registry are added |
| `ClientChecks.AddedStep` | web/image_processing_view/image_processing.js:127-131 | one more model is added iff its radio is not yet in the list |
| `ClientChecks.ModelLists.constructor` | web/image_processing_view/image_processing.js:108-135 | the two lists start as given |
| `ClientChecks.ModelLists.InitModelLists` | web/image_processing_view/image_processing.js:108-135 | a registry that is not an object changes nothing; otherwise both lists gain the radios of the models not yet in the training list |

## Left out

- **Transport.** SSH connections, SCP transfers, `exec`, stream blocking and the one-hour wait are not modelled as code. Their results are inputs: which transfers fail, whether the wait timed out, and which files the worker left behind.
- **Concurrency.** Two requests on the same save, or a sweep racing a dispatch, are not modelled. Every endpoint runs to completion on the state it found.
- **`generate_id`.** Randomness and the clock behind it are inputs (random bytes and a date), and so are the identifiers the sweep and the import draw. The import assumes its save id and temp id are fresh.
- **Thumbnail rounding.** The thumbnail's size is `round(n / 10)` on a float. The model computes it on integers. Floating point is not modelled; for pixel counts the two agree, since the halves (k.5) are exact in binary.
- **Utils.Thumbnail: the zero size.** A size of 0 fails as PHP 8's `imagecreatetruecolor` fails, with a `ValueError`. Under PHP 7 the call returns false with warnings and no thumbnail is written; that variant is not modelled.
- **The machine-learning and image modules.** The few-shot network, segmentation, clustering, label propagation, image cropping and thumbnail pixels are inputs: their error message, their boxes, their transcription, and what `getimagesize` reports.
- **Other inputs.** The database query for a project's images, the directory listings, and the template lookup table shipped with the application are inputs.
- **File permissions.** `chmod` and folder permissions carry no meaning in the model and are left out.
- **Upload: the non-POST request.** `UploadImages.UploadImages` records no `error_log` line for a non-POST request or a missing project id. The line goes to the web server's own log, which is not part of this model.
- **Upload: the thumbnails folder.** A missing thumbnails folder is treated as empty. The thumbnails the loop makes for it are not stored anywhere, since writing into a missing folder fails.
- **`Strings.Basename`.** PHP's `basename` strips trailing slashes; this model does not.
- **Import: glob's hidden files.** `glob` skips hidden files; this rule is not modelled.
- **Import: non-string mapping values.** Mapping values that are not strings are not modelled.
- **Import: entry directories.** An entry with a directory in its name is extracted into that directory before the rename moves it out. The emptied directory stays in the save; the model keeps files only and does not represent it.
- **Import: the date.** The date in the welcome log is a parameter.
- **`ClientChecks`: the DOM.** The DOM is modelled as its values. A radio group with no checked radio (a `querySelector` returning null, which throws) is not modelled.
- **`ClientChecks`: duplicate ids.** Two elements with the same id are not modelled.
- **`ClientChecks`: JSON exponent notation.** Exponent notation in JSON numbers is ignored.
- **`ClientChecks`: the XState machines.** The machines that sequence the page, the handling of a successful response body, and `running_async_datech`'s own response handling are left out. They drive the UI and change no server state.
- **The local dispatcher's model parameters.** When it derives the model key, a model or alphabet parameter that is not a string is read as absent.
- **`deleteAllRecursively` (web/utils_php/utils.php).** Its recursive walk of the folder is not modelled. Its effect is modelled: the folder is removed from `Site.saves`.
- GpuWrapper.Work: uses the corrected training guard (`GpuWrapper.RefusesTraining`). As written (gpu_image_processing_wrapper.py:439-447), training a selected model that is not a base model always raises, because the model's own file is the path the run writes; this model lets that run go on. The as-written guard is `GpuWrapper.RefusesTrainingAsWritten`, and `GpuWrapper.RetrainingRefused` proves the refusal.
- GpuWrapper.RunWorker: goes through `GpuWrapper.Work`, so it has the same corrected training guard and does not raise the as-written refusal of a non-base model.
- GpuWrapper.TrainingGuards: states the corrected guard; the as-written refusal of every non-base model is stated by `GpuWrapper.RetrainingRefused` instead.
- GpuWrapper.Refusal: its training-guard step is the corrected `GpuWrapper.RefusesTraining`, not the code's `GpuWrapper.RefusesTrainingAsWritten`.
- ImportSave.Outcome: decides a legacy archive (one without "image_name_mapping") under the corrected `ImportSave.SaveMapping`. As written (import_save.php:101) such an archive with an image document is always answered "images missing" (`ImportSave.LegacyImportRefusedAsWritten`); here it is imported when its images are present.
- ImportSave.Unpacked: extracts a legacy archive under the corrected `ImportSave.SaveMapping`, not `ImportSave.SaveMappingAsWritten`.
- ImportSave.Unpack: extracts a legacy archive under the corrected mapping, as `ImportSave.Unpacked` does.
- ImportSave.Import: imports legacy archives under the corrected mapping, as `ImportSave.Outcome` does. It also does not model the uploaded zip. The source moves the zip into the project folder (import_save.php:53) and deletes it only after the extraction (line 145), so it stays when it cannot be opened, lacks either JSON file, or a throw comes first; the model leaves `Site.images` unchanged.
- ProjectView.PageLoad: writes the corrected final table (`ProjectView.FinalTable`), which keeps the registrations the sweep made. As written (index.php:586) the page writes back its own earlier copy, and those registrations are lost (`ProjectView.RegistrationLost`).
- **Parameter values in the log.** How PHP prints a value in a parameter line (the digits of a float, `true` as 1, an array as "Array") is not modelled. A `SaveFiles.LogLine.Setting` line carries the value itself.
- **The rest of the application.** The page templates, the annotation editors, the CRUD endpoints for projects and saves, crop and rotate, the configuration files and the database layer are not part of this model.

## Findings

| source | as written | input that shows it | evidently intended | confidence | as-written member | corrected member |
|---|---|---|---|---|---|---|
| web/index.php:586 | the page load writes back the project table it read before the sweep | a save whose training job the sweep sees finished: the sweep registers the model (index.php:353-356), then line 586 overwrites the file with the earlier copy | the final write keeps the registrations the sweep made | not executed | `ProjectView.FinalTableAsWritten` (`ProjectView.RegistrationLost`) | `ProjectView.FinalTable` (`ProjectView.FinalTableKeepsRegistrations`) |
| web/project_view/import_save.php:101 | the legacy branch stores the undefined `$img_name` (null) as each document's file name | an archive without "image_name_mapping" whose "documents" lists `a.png`, with `a.png` in the zip: no entry matches, so `a.png` is never extracted and the import answers "missing images" | each document maps to itself, so the image is extracted | not executed | `ImportSave.SaveMappingAsWritten` (`ImportSave.LegacyImportRefusedAsWritten`) | `ImportSave.SaveMapping` (`ImportSave.LegacyImportAccepted`, `ImportSave.LegacyArchiveImported`) |
| gpu/gpu_image_processing_wrapper.py:439-447 | retraining a fine-tuned model sets the new model path to the existing model's path, then refuses because that file exists | training with a selected model that is not a base model: its file exists (it is the one being fine-tuned), so the guard raises | the guard refuses only a new model whose file already exists | not executed | `GpuWrapper.RefusesTrainingAsWritten` (`GpuWrapper.RetrainingRefused`) | `GpuWrapper.RefusesTraining` (`GpuWrapper.TrainingGuardIntended`) |
