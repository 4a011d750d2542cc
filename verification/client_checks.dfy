/**
 * The browser side of the image processing view (web/image_processing_view/image_processing.js):
 * the checks each "execute…Promise" runs on the form before it posts anything, the
 * request it then builds, how it reads an HTTP status that is not OK, and the loop
 * that adds the project's fine-tuned models to the two model lists.
 *
 * The DOM reads are inputs. A number field is read with parseInt or parseFloat, so it
 * is an optional number: None stands for NaN, which fails every range check and is
 * sent as null. A radio group with nothing checked reads as undefined, which
 * JSON.stringify drops from the request.
 */
module ClientChecks {
  import opened Wrappers
  import opened PhpValues
  import opened FrozenBoxes
  import opened SaveFiles
  import AsyncScripts
  import GpuDispatch
  import Ledger

  /** What a check ends in: a warning shown and nothing sent, or the request posted. */
  datatype Outcome<T> = Warned(message: string) | Sent(request: T)

  /** A number as it reaches the server: JSON keeps a whole number as an integer, NaN becomes null. */
  function JsonReal(x: Option<real>): (v: Value)
    ensures x.None? <==> v.Null?
    ensures x.Some? ==> NumberOf(v) == x
  {
    if x.None? then Null
    else if x.value == x.value.Floor as real then Int(x.value.Floor)
    else Float(x.value)
  }

  /** parseInt's result as it reaches the server. */
  function JsonInt(n: Option<int>): (v: Value)
    ensures n.None? <==> v.Null?
    ensures n.Some? ==> v == Int(n.value)
  {
    if n.None? then Null else Int(n.value)
  }

  /** A fixed script name: a literal string no PHP numeric test accepts. */
  function Script(name: string): Value
  {
    Str(name, None)
  }

  // ---------------------------------------------------------------------------
  // The CPU modules (posted to run_async_py_scripts.php)
  // ---------------------------------------------------------------------------

  const LinesWarning: string := "Warning: please make sure to select at least one line on each image in this parameter setup."
  const MinDistWarning: string :=
    "Warning: please make sure to set the minimum pixel distance between lines to a number between 1 and 500."
  const GapWarning: string :=
    "Warning: please make sure to set the maximal pixel gap size inside symbols to a number between 1 and 100."
  const AreaWarning: string :=
    "Warning: please make sure to set the minimum area of symbols to a number between 1 and 200."
  const MinImagesWarning: string :=
    "Warning: please make sure to set the minimum number of boxes per cluster to a number between 1 and 100."
  const AlphaWarning: string :=
    "Warning: please make sure to set the alpha (change) threshold to a number between 0.01 and 1."

  /** Some image whose boxes are all frozen (or that has none), so no line of it is selected. */
  predicate Unsegmented(docs: Documents)
  {
    exists key :: key in docs && Regular(docs[key]) == []
  }

  /** The boxes left after filtering out the frozen ones are none exactly when every box is frozen. */
  lemma {:induction false} RegularEmpty(bs: seq<Box>)
    ensures Regular(bs) == [] <==> forall i :: 0 <= i < |bs| ==> bs[i].frozen
    decreases |bs|
  {
    if bs != [] {
      RegularEmpty(bs[1..]);
      assert forall i :: 1 <= i < |bs| ==> bs[i] == bs[1..][i - 1];
    }
  }

  /** The forEach over the images that raises no_segmented_lines. */
  method FindUnsegmented(docs: Documents) returns (none: bool)
    ensures none <==> Unsegmented(docs)
  {
    none := false;
    var todo := docs.Keys;
    while todo != {}
      invariant todo <= docs.Keys
      invariant none <==> exists key :: key in docs.Keys - todo && Regular(docs[key]) == []
      decreases todo
    {
      var key :| key in todo;
      var regular := Regular(docs[key]);
      if |regular| < 1 {
        none := true;
      }
      todo := todo - {key};
    }
  }

  /** The line segmentation request: the "segmented lines" option and nothing else. */
  function LinePayload(twoLines: bool): Payload
  {
    map["executingScript" := Script("asyncLineSegmentation"), "two_segmented_lines" := Bool(twoLines)]
  }

  function LineOutcome(twoLines: bool, docs: Documents): (r: Outcome<Payload>)
  {
    if twoLines && Unsegmented(docs) then Warned(LinesWarning) else Sent(LinePayload(twoLines))
  }

  /**
   * With the "segmented lines" option, the request goes out only when every image has
   * a box that is not frozen; without it, always. What goes out selects line
   * segmentation and is kept by the server as it is.
   */
  lemma LineOutcomeChecked(twoLines: bool, docs: Documents)
    ensures LineOutcome(twoLines, docs).Sent? <==>
              !twoLines || forall key :: key in docs ==> exists i :: 0 <= i < |docs[key]| && !docs[key][i].frozen
    ensures LineOutcome(twoLines, docs).Warned? ==> LineOutcome(twoLines, docs).message == LinesWarning
    ensures var r := LineOutcome(twoLines, docs);
            r.Sent? ==>
              && AsyncScripts.ScriptOf(Get(r.request, "executingScript")) == Some(AsyncScripts.LineSegmentation)
              && AsyncScripts.Rebuilt(AsyncScripts.LineSegmentation, r.request) == map["two_segmented_lines" := Bool(twoLines)]
  {
    forall key | key in docs {
      RegularEmpty(docs[key]);
    }
    var p := LinePayload(twoLines);
    AsyncScripts.RebuiltChecked(AsyncScripts.LineSegmentation, p, "two_segmented_lines");
    forall key | key in AsyncScripts.Rebuilt(AsyncScripts.LineSegmentation, p)
      ensures key == "two_segmented_lines"
    {
      AsyncScripts.RebuiltChecked(AsyncScripts.LineSegmentation, p, key);
    }
  }

  /** executeBackendAsyncLineSegmentationPromise, with the loop as a method. */
  method RequestLineSegmentation(twoLines: bool, docs: Documents) returns (r: Outcome<Payload>)
    ensures r == LineOutcome(twoLines, docs)
  {
    var none := false;
    if twoLines {
      none := FindUnsegmented(docs);
    }
    if twoLines && none {
      return Warned(LinesWarning);
    }
    r := Sent(LinePayload(twoLines));
  }

  /** The segmentation request: the three numbers read, the fixed line threshold and the seven boxes. */
  function SegmentationPayload(minDist: Option<int>, gap: Option<int>, area: Option<int>, checked: string -> bool): Payload
  {
    map["executingScript" := Script("asyncSegmentation"),
        "minDistLineSeg" := JsonInt(minDist), "thresLineSeg" := Float(0.05),
        "thAboveBelowSymbol" := JsonInt(gap), "thSizeCC" := JsonInt(area)]
    + map p | p in AsyncScripts.SwitchParams :: Bool(checked(p))
  }

  /** executeBackendAsyncSegmentationPromise: three range checks, in this order. */
  function SegmentationOutcome(minDist: Option<int>, gap: Option<int>, area: Option<int>, checked: string -> bool)
    : (r: Outcome<Payload>)
    ensures r.Sent? <==> (minDist.Some? && 1 <= minDist.value <= 500)
                         && (gap.Some? && 1 <= gap.value <= 100)
                         && (area.Some? && 1 <= area.value <= 200)
    ensures r.Warned? && !(minDist.Some? && 1 <= minDist.value <= 500) ==> r.message == MinDistWarning
  {
    if !(minDist.Some? && 1 <= minDist.value <= 500) then Warned(MinDistWarning)
    else if !(gap.Some? && 1 <= gap.value <= 100) then Warned(GapWarning)
    else if !(area.Some? && 1 <= area.value <= 200) then Warned(AreaWarning)
    else Sent(SegmentationPayload(minDist, gap, area, checked))
  }

  /** The three range checks of the segmentation form. */
  predicate SegmentationInRange(minDist: Option<int>, gap: Option<int>, area: Option<int>)
  {
    (minDist.Some? && 1 <= minDist.value <= 500) && (gap.Some? && 1 <= gap.value <= 100) && (area.Some? && 1 <= area.value <= 200)
  }

  /** One key of the segmentation request: what the server keeps of it. */
  lemma SegmentationKeptAt(minDist: Option<int>, gap: Option<int>, area: Option<int>, checked: string -> bool, key: string)
    ensures var p := SegmentationPayload(minDist, gap, area, checked);
            var kept := AsyncScripts.Rebuilt(AsyncScripts.Segmentation, p);
            && (key in kept <==> key in AsyncScripts.Checks(AsyncScripts.Segmentation)
                                 && (key == "minDistLineSeg" ==> minDist.Some? && 1 <= minDist.value <= 500)
                                 && (key == "thAboveBelowSymbol" ==> gap.Some? && 1 <= gap.value <= 100)
                                 && (key == "thSizeCC" ==> area.Some? && 1 <= area.value <= 200))
            && (key in kept ==> key in p && kept[key] == p[key])
  {
    if key in AsyncScripts.SwitchParams {
      SwitchKept(minDist, gap, area, checked, key);
    } else if key in AsyncScripts.SegmentationNumbers {
      NumberKept(minDist, gap, area, checked, key);
    } else {
      var p := SegmentationPayload(minDist, gap, area, checked);
      AsyncScripts.RebuiltChecked(AsyncScripts.Segmentation, p, key);
    }
  }

  /** SegmentationKeptAt for a switch: always kept, as the checkbox's state. */
  lemma SwitchKept(minDist: Option<int>, gap: Option<int>, area: Option<int>, checked: string -> bool, key: string)
    requires key in AsyncScripts.SwitchParams
    ensures var p := SegmentationPayload(minDist, gap, area, checked);
            var kept := AsyncScripts.Rebuilt(AsyncScripts.Segmentation, p);
            && key in AsyncScripts.Checks(AsyncScripts.Segmentation)
            && key != "minDistLineSeg" && key != "thAboveBelowSymbol" && key != "thSizeCC"
            && key in kept && key in p && kept[key] == p[key]
  {
    var p := SegmentationPayload(minDist, gap, area, checked);
    AsyncScripts.SwitchesAreNotNumbers(key);
    assert AsyncScripts.Checks(AsyncScripts.Segmentation)[key] == AsyncScripts.Switch;
    assert key in p && p[key] == Bool(checked(key));
    AsyncScripts.RebuiltChecked(AsyncScripts.Segmentation, p, key);
  }

  /** SegmentationKeptAt for a number: kept, as sent, when in its range. */
  lemma NumberKept(minDist: Option<int>, gap: Option<int>, area: Option<int>, checked: string -> bool, key: string)
    requires key in AsyncScripts.SegmentationNumbers
    ensures var p := SegmentationPayload(minDist, gap, area, checked);
            var kept := AsyncScripts.Rebuilt(AsyncScripts.Segmentation, p);
            && key in AsyncScripts.Checks(AsyncScripts.Segmentation)
            && (key in kept <==> (key == "minDistLineSeg" ==> minDist.Some? && 1 <= minDist.value <= 500)
                                 && (key == "thAboveBelowSymbol" ==> gap.Some? && 1 <= gap.value <= 100)
                                 && (key == "thSizeCC" ==> area.Some? && 1 <= area.value <= 200))
            && (key in kept ==> key in p && kept[key] == p[key])
  {
    var p := SegmentationPayload(minDist, gap, area, checked);
    var checks := AsyncScripts.Checks(AsyncScripts.Segmentation);
    assert key !in AsyncScripts.SwitchParams;
    assert key in p && checks[key] == AsyncScripts.SegmentationNumbers[key];
    if key == "minDistLineSeg" {
      assert checks[key] == AsyncScripts.Whole(1, 500) && p[key] == JsonInt(minDist);
    } else if key == "thAboveBelowSymbol" {
      assert checks[key] == AsyncScripts.Whole(1, 100) && p[key] == JsonInt(gap);
    } else if key == "thSizeCC" {
      assert checks[key] == AsyncScripts.Whole(1, 200) && p[key] == JsonInt(area);
    } else {
      assert checks[key] == AsyncScripts.Number(0.01, 1.0) && p[key] == Float(0.05);
    }
    AsyncScripts.RebuiltChecked(AsyncScripts.Segmentation, p, key);
  }

  /**
   * The browser and the server agree: the request is sent exactly when the server
   * would keep every one of the segmentation's parameters.
   */
  lemma SegmentationChecksAgree(minDist: Option<int>, gap: Option<int>, area: Option<int>, checked: string -> bool)
    ensures var p := SegmentationPayload(minDist, gap, area, checked);
            SegmentationOutcome(minDist, gap, area, checked).Sent? <==>
              AsyncScripts.Rebuilt(AsyncScripts.Segmentation, p).Keys == AsyncScripts.Checks(AsyncScripts.Segmentation).Keys
  {
    var p := SegmentationPayload(minDist, gap, area, checked);
    var checks := AsyncScripts.Checks(AsyncScripts.Segmentation);
    var kept := AsyncScripts.Rebuilt(AsyncScripts.Segmentation, p);
    if SegmentationInRange(minDist, gap, area) {
      forall key
        ensures key in kept <==> key in checks
      {
        SegmentationKeptAt(minDist, gap, area, checked, key);
      }
    } else {
      assert "minDistLineSeg" in checks && "thAboveBelowSymbol" in checks && "thSizeCC" in checks;
      SegmentationKeptAt(minDist, gap, area, checked, "minDistLineSeg");
      SegmentationKeptAt(minDist, gap, area, checked, "thAboveBelowSymbol");
      SegmentationKeptAt(minDist, gap, area, checked, "thSizeCC");
    }
  }

  /** The segmentation request selects the segmentation. */
  lemma SegmentationSelected(minDist: Option<int>, gap: Option<int>, area: Option<int>, checked: string -> bool)
    ensures AsyncScripts.ScriptOf(Get(SegmentationPayload(minDist, gap, area, checked), "executingScript"))
            == Some(AsyncScripts.Segmentation)
  {
    assert "executingScript" !in AsyncScripts.SwitchParams;
  }

  /** A segmentation request that is sent is kept as sent, less the script name. */
  lemma SegmentationKeptAsSent(minDist: Option<int>, gap: Option<int>, area: Option<int>, checked: string -> bool)
    requires SegmentationOutcome(minDist, gap, area, checked).Sent?
    ensures var p := SegmentationPayload(minDist, gap, area, checked);
            AsyncScripts.Rebuilt(AsyncScripts.Segmentation, p) == p - {"executingScript"}
  {
    var p := SegmentationPayload(minDist, gap, area, checked);
    var kept := AsyncScripts.Rebuilt(AsyncScripts.Segmentation, p);
    var rest := p - {"executingScript"};
    var checks := AsyncScripts.Checks(AsyncScripts.Segmentation);
    SegmentationChecksAgree(minDist, gap, area, checked);
    SegmentationPayloadKeys(minDist, gap, area, checked);
    ScriptNameNotChecked();
    SegmentationValuesKept(minDist, gap, area, checked);
    SameMaps(kept, p, checks.Keys, "executingScript");
  }

  /** Whatever the server keeps of a segmentation request, it keeps as sent. */
  lemma SegmentationValuesKept(minDist: Option<int>, gap: Option<int>, area: Option<int>, checked: string -> bool)
    ensures var p := SegmentationPayload(minDist, gap, area, checked);
            var kept := AsyncScripts.Rebuilt(AsyncScripts.Segmentation, p);
            forall key :: key in kept ==> key in p && kept[key] == p[key]
  {
    var p := SegmentationPayload(minDist, gap, area, checked);
    var kept := AsyncScripts.Rebuilt(AsyncScripts.Segmentation, p);
    forall key | key in kept
      ensures key in p && kept[key] == p[key]
    {
      SegmentationKeptAt(minDist, gap, area, checked, key);
    }
  }

  /** A map that has the other's keys but one, with the same values, is the other without that key. */
  lemma SameMaps(kept: Payload, p: Payload, keys: set<string>, dropped: string)
    requires kept.Keys == keys && p.Keys == keys + {dropped} && dropped !in keys
    requires forall key :: key in kept ==> key in p && kept[key] == p[key]
    ensures kept == p - {dropped}
  {
    assert kept.Keys == (p - {dropped}).Keys;
  }

  /** The request holds the script name and exactly the segmentation's parameters. */
  lemma SegmentationPayloadKeys(minDist: Option<int>, gap: Option<int>, area: Option<int>, checked: string -> bool)
    ensures SegmentationPayload(minDist, gap, area, checked).Keys ==
              AsyncScripts.Checks(AsyncScripts.Segmentation).Keys + {"executingScript"}
  {
  }

  /** The script name is not one of the segmentation's parameters. */
  lemma ScriptNameNotChecked()
    ensures "executingScript" !in AsyncScripts.Checks(AsyncScripts.Segmentation)
  {
    assert "executingScript" !in AsyncScripts.SwitchParams;
  }

  function ClusteringPayload(minImages: Option<int>): Payload
  {
    map["executingScript" := Script("asyncClustering"), "minImages" := JsonInt(minImages)]
  }

  /** executeBackendAsyncClusteringPromise. */
  function ClusteringOutcome(minImages: Option<int>): (r: Outcome<Payload>)
  {
    if !(minImages.Some? && 1 <= minImages.value <= 100) then Warned(MinImagesWarning)
    else Sent(ClusteringPayload(minImages))
  }

  /** The clustering request is sent exactly when the server keeps its one parameter, and then as sent. */
  lemma ClusteringChecksAgree(minImages: Option<int>)
    ensures ClusteringOutcome(minImages).Sent? <==>
              "minImages" in AsyncScripts.Rebuilt(AsyncScripts.Clustering, ClusteringPayload(minImages))
    ensures ClusteringOutcome(minImages).Warned? ==> ClusteringOutcome(minImages).message == MinImagesWarning
    ensures ClusteringOutcome(minImages).Sent? ==>
              AsyncScripts.Rebuilt(AsyncScripts.Clustering, ClusteringPayload(minImages)) == map["minImages" := Int(minImages.value)]
  {
    var p := ClusteringPayload(minImages);
    AsyncScripts.RebuiltChecked(AsyncScripts.Clustering, p, "minImages");
    forall key | key in AsyncScripts.Rebuilt(AsyncScripts.Clustering, p)
      ensures key == "minImages"
    {
      AsyncScripts.RebuiltChecked(AsyncScripts.Clustering, p, key);
    }
  }

  function PropagationPayload(alpha: Option<real>): Payload
  {
    map["executingScript" := Script("asyncLabelPropagation"), "alphaLabelPropagation" := JsonReal(alpha)]
  }

  /** executeBackendAsyncLabelPropagationPromise. */
  function PropagationOutcome(alpha: Option<real>): (r: Outcome<Payload>)
  {
    if !(alpha.Some? && 0.01 <= alpha.value <= 1.0) then Warned(AlphaWarning)
    else Sent(PropagationPayload(alpha))
  }

  /** The label propagation request is sent exactly when the server keeps alpha. */
  lemma PropagationChecksAgree(alpha: Option<real>)
    ensures PropagationOutcome(alpha).Sent? <==>
              "alphaLabelPropagation" in AsyncScripts.Rebuilt(AsyncScripts.LabelPropagation, PropagationPayload(alpha))
    ensures PropagationOutcome(alpha).Warned? ==> PropagationOutcome(alpha).message == AlphaWarning
    ensures PropagationOutcome(alpha).Sent? ==>
              AsyncScripts.ScriptOf(Get(PropagationPayload(alpha), "executingScript")) == Some(AsyncScripts.LabelPropagation)
  {
    AsyncScripts.RebuiltChecked(AsyncScripts.LabelPropagation, PropagationPayload(alpha), "alphaLabelPropagation");
  }

  // ---------------------------------------------------------------------------
  // Few-shot prediction and training (posted to run_gpu_python_code.php)
  // ---------------------------------------------------------------------------

  const ThresholdWarning: string := "Warning: please make sure to select a threshold between 0.01 and 1."
  const ShotsWarning: string := "Warning: please make sure to set the number of shots between 1 and 5."
  const NameWarning: string := "Warning: please enter a new model name."
  const NameTakenWarning: string := "Warning: there is already a fined tuned model with this name, please enter a different name."
  const EpochsWarning: string := "Warning: please make sure to set the number of epochs between 1 and 20."

  /** base_models_for_fine_tuning: the models a training run starts a new model from. */
  const BaseModelsForFineTuning: seq<string> := ["omniglot", "cipherglot-mix", "cipherglot-separated"]

  /** The few-shot prediction form. */
  datatype PredictionForm = PredictionForm(alphabet: Option<string>, model: Option<string>, modelName: string,
                                           readSpaces: Option<int>, shots: Option<int>, threshold: Option<real>)

  /** executeBackendFewShotsPromise: the threshold is checked first, then the number of shots. */
  function PredictionOutcome(f: PredictionForm): (r: Outcome<PredictionForm>)
    ensures r.Sent? ==> r.request == f
  {
    if !(f.threshold.Some? && 0.01 <= f.threshold.value <= 1.0) then Warned(ThresholdWarning)
    else if !(f.shots.Some? && 1 <= f.shots.value <= 5) then Warned(ShotsWarning)
    else Sent(f)
  }

  /**
   * The prediction is requested exactly when the server would keep both numbers as
   * sent; a bad threshold is reported before a bad number of shots.
   */
  lemma PredictionChecksAgree(f: PredictionForm)
    ensures PredictionOutcome(f).Sent? <==>
              GpuDispatch.Admissible(NumberOfShots, JsonInt(f.shots))
              && GpuDispatch.Admissible(ThresholdFewShots, JsonReal(f.threshold))
    ensures PredictionOutcome(f).Warned? ==>
              PredictionOutcome(f).message ==
                if GpuDispatch.Admissible(ThresholdFewShots, JsonReal(f.threshold)) then ShotsWarning else ThresholdWarning
  {
  }

  /** The training form. */
  datatype TrainingForm = TrainingForm(validation: Option<int>, alphabet: Option<string>, model: Option<string>,
                                       modelName: string, newName: string, epochs: Option<int>)

  /** The new model name as the request carries it: undefined (dropped), null, or a string. */
  datatype Name = Undefined | NullName | Named(s: string)

  /** The training request: the form's fields plus the fixed prediction settings. */
  datatype TrainingRequest = TrainingRequest(validation: Option<int>, alphabet: Option<string>, model: Option<string>,
                                             modelName: string, newName: Name, epochs: int,
                                             shots: int, threshold: real, readSpaces: int)

  predicate IsBase(model: Option<string>)
  {
    model.Some? && model.value in BaseModelsForFineTuning
  }

  /** A fine-tuned model keeps its registered name: the name field is replaced by the registry entry. */
  function NameOf(f: TrainingForm, registry: Ledger.Registry): (n: Name)
    ensures IsBase(f.model) ==> n == Named(f.newName)
    ensures !IsBase(f.model) && f.model.Some? && f.model.value in registry ==>
              n == (if registry[f.model.value].Some? then Named(registry[f.model.value].value) else NullName)
  {
    if IsBase(f.model) then Named(f.newName)
    else if f.model.Some? && f.model.value in registry then
      (if registry[f.model.value].Some? then Named(registry[f.model.value].value) else NullName)
    else Undefined
  }

  /** execute_backend_few_shot_train_promise: the name, then a clash with a registered name, then the epochs. */
  function TrainingOutcome(f: TrainingForm, registry: Ledger.Registry): (r: Outcome<TrainingRequest>)
  {
    var name := NameOf(f, registry);
    if name == Named("") then Warned(NameWarning)
    else if IsBase(f.model) && Some(name.s) in registry.Values then Warned(NameTakenWarning)
    else if !(f.epochs.Some? && 1 <= f.epochs.value <= 20) then Warned(EpochsWarning)
    else Sent(TrainingRequest(f.validation, f.alphabet, f.model, f.modelName, name, f.epochs.value, 5, 0.4, 0))
  }

  /**
   * A training run is requested exactly when the name is not empty, a new model's name
   * is not already registered, and the epochs are in range. The request carries five
   * shots, a threshold of 0.4 and spaces not read, whatever the form says.
   */
  lemma TrainingChecked(f: TrainingForm, registry: Ledger.Registry)
    ensures TrainingOutcome(f, registry).Sent? <==>
              && NameOf(f, registry) != Named("")
              && !(IsBase(f.model) && Some(f.newName) in registry.Values)
              && GpuDispatch.Admissible(Epochs, JsonInt(f.epochs))
    ensures var r := TrainingOutcome(f, registry);
            r.Sent? ==>
              && r.request.shots == 5 && r.request.threshold == 0.4 && r.request.readSpaces == 0
              && GpuDispatch.Admissible(NumberOfShots, Int(r.request.shots))
              && GpuDispatch.Admissible(ThresholdFewShots, JsonReal(Some(r.request.threshold)))
              && r.request.newName == NameOf(f, registry)
  {
    assert 0.4 != (0.4).Floor as real;
  }

  /** A new model starts from a base model under a fresh, non-empty name. */
  lemma NewModelNameFresh(f: TrainingForm, registry: Ledger.Registry)
    requires IsBase(f.model) && TrainingOutcome(f, registry).Sent?
    ensures TrainingOutcome(f, registry).request.newName == Named(f.newName)
    ensures f.newName != "" && Some(f.newName) !in registry.Values
  {
  }

  /**
   * Retraining a fine-tuned model ignores the name field: the request carries the
   * name the registry holds for it, and any name already in use is accepted.
   */
  lemma RetrainingKeepsRegisteredName(f: TrainingForm, registry: Ledger.Registry, name: string)
    requires f.model.Some? && f.model.value !in BaseModelsForFineTuning
    requires f.model.value in registry && registry[f.model.value] == Some(name) && name != ""
    requires f.epochs.Some? && 1 <= f.epochs.value <= 20
    ensures TrainingOutcome(f, registry).Sent?
    ensures TrainingOutcome(f, registry).request.newName == Named(name)
  {
  }

  // ---------------------------------------------------------------------------
  // Responses that are not OK
  // ---------------------------------------------------------------------------

  const TransferMessage: string :=
    "Something went wrong during the transfer of results, you may wait and then go back and reload the 'project view'. If that does not help, please try again."
  const TimeoutMessage: string :=
    "The execution times out automatically after one hour, please close this window, go back to the 'project view', wait and after refreshing you should see in the logs that the results were transferred if the execution was successful."
  const FailedMessage: string :=
    "The execution failed, please try again. If you still get this error, then please try to create a new save. Contact support if this error persists."

  /** What the response handler throws: a ServerError with its message, or the bare string. */
  datatype Thrown = ServerError(message: string) | UnhandledNetworkError

  /** The few-shot response handler: nothing for an OK status, otherwise what it throws. */
  function ResponseError(status: int): (e: Option<Thrown>)
  {
    if 200 <= status <= 299 then None
    else if status == 500 then Some(ServerError(TransferMessage))
    else if status == 502 then Some(ServerError(FailedMessage))
    else if status == 504 then Some(ServerError(TimeoutMessage))
    else Some(UnhandledNetworkError)
  }

  /**
   * Every status the few-shot dispatcher ends with is read as it means: a completed
   * run or an error the catch-all logs with status 200 throws nothing, a timed-out wait
   * gets the timeout message, a failed worker or a failed transfer to the GPU server
   * the failure message, missing results the transfer message, and the two refusals
   * (400) fall through to "unhandled network error".
   */
  lemma DispatcherStatusesRead(exit: GpuDispatch.Exit)
    ensures var e := ResponseError(GpuDispatch.StatusOf(exit));
            && (e.None? <==> exit == GpuDispatch.Completed || exit == GpuDispatch.Crashed)
            && (exit == GpuDispatch.WaitTimedOut <==> e == Some(ServerError(TimeoutMessage)))
            && (exit == GpuDispatch.RemoteFailed || exit == GpuDispatch.StagingFailed <==> e == Some(ServerError(FailedMessage)))
            && (exit == GpuDispatch.NoFlag || exit == GpuDispatch.OutputsMissing <==> e == Some(ServerError(TransferMessage)))
            && (exit == GpuDispatch.MissingSave || exit == GpuDispatch.BadScript <==> e == Some(UnhandledNetworkError))
  {
  }

  // ---------------------------------------------------------------------------
  // init_model_lists
  // ---------------------------------------------------------------------------

  /** A radio button of a model list: its group name, its element id, its value and its label text. */
  datatype Radio = Radio(group: string, id: string, value: string, caption: string)

  const PredictionGroup: string := "fewShotsModelRadio"
  const TrainingGroup: string := "few_shot_train_model_radio"

  /** Both radios of a model carry the id "few_shot_train_<key>". */
  function RadioId(key: string): string
  {
    "few_shot_train_" + key
  }

  lemma RadioIdInjective(k1: string, k2: string)
    ensures RadioId(k1) == RadioId(k2) <==> k1 == k2
  {
    if RadioId(k1) == RadioId(k2) {
      assert k1 == RadioId(k1)[|"few_shot_train_"|..];
    }
  }

  function Ids(rs: seq<Radio>): (ids: set<string>)
  {
    set i | 0 <= i < |rs| :: rs[i].id
  }

  /** The models, in key order, that the loop adds to lists whose ids are `present`. */
  function Added(present: set<string>, models: seq<(string, string)>): (r: seq<(string, string)>)
    decreases |models|
  {
    if models == [] then []
    else
      var prev := Added(present, models[..|models| - 1]);
      var m := models[|models| - 1];
      if RadioId(m.0) in present || exists i :: 0 <= i < |prev| && prev[i].0 == m.0 then prev else prev + [m]
  }

  /** The radios for the added models, in one group. */
  function RadiosOf(group: string, added: seq<(string, string)>): (rs: seq<Radio>)
    ensures |rs| == |added|
    ensures forall i :: 0 <= i < |rs| ==> rs[i] == Radio(group, RadioId(added[i].0), added[i].0, added[i].1)
  {
    seq(|added|, i requires 0 <= i < |added| => Radio(group, RadioId(added[i].0), added[i].0, added[i].1))
  }

  /**
   * The loop adds each model at most once and none already listed, and afterwards
   * every model of the project is listed.
   */
  lemma {:induction false} AddedOnce(present: set<string>, models: seq<(string, string)>)
    ensures forall i :: 0 <= i < |Added(present, models)| ==> RadioId(Added(present, models)[i].0) !in present
    ensures forall i, j :: 0 <= i < j < |Added(present, models)| ==> Added(present, models)[i].0 != Added(present, models)[j].0
    ensures forall i :: 0 <= i < |models| ==>
              RadioId(models[i].0) in present || exists j :: 0 <= j < |Added(present, models)| && Added(present, models)[j].0 == models[i].0
    ensures forall j :: 0 <= j < |Added(present, models)| ==> Added(present, models)[j] in models
    decreases |models|
  {
    if models != [] {
      var init := models[..|models| - 1];
      var prev := Added(present, init);
      var r := Added(present, models);
      AddedOnce(present, init);
      assert forall i :: 0 <= i < |init| ==> init[i] == models[i];
      assert forall j :: 0 <= j < |prev| ==> r[j] == prev[j];
      forall i | 0 <= i < |models| && RadioId(models[i].0) !in present
        ensures exists j :: 0 <= j < |r| && r[j].0 == models[i].0
      {
        if i < |init| {
          var j :| 0 <= j < |prev| && prev[j].0 == init[i].0;
          assert r[j] == prev[j];
        } else if r != prev {
          assert r[|prev|] == models[i];
        } else {
          var j :| 0 <= j < |prev| && prev[j].0 == models[i].0;
          assert r[j] == prev[j];
        }
      }
    }
  }

  /** The model lists of the page: the prediction list and the training list. */
  class ModelLists {
    var prediction: seq<Radio>
    var training: seq<Radio>

    constructor (prediction: seq<Radio>, training: seq<Radio>)
      ensures this.prediction == prediction && this.training == training
    {
      this.prediction := prediction;
      this.training := training;
    }

    /**
     * init_model_lists: for a registry given as an object, each model whose id the
     * training list does not hold yet gets a radio in both lists; anything else
     * leaves the lists alone.
     */
    method InitModelLists(models: Option<seq<(string, string)>>)
      modifies this
      ensures models.None? ==> prediction == old(prediction) && training == old(training)
      ensures models.Some? ==>
                var added := Added(Ids(old(training)), models.value);
                && prediction == old(prediction) + RadiosOf(PredictionGroup, added)
                && training == old(training) + RadiosOf(TrainingGroup, added)
    {
      if models.None? {
        return;
      }
      var ms := models.value;
      ghost var present := Ids(training);
      ghost var prediction0, training0 := prediction, training;
      var i := 0;
      while i < |ms|
        invariant 0 <= i <= |ms|
        invariant prediction == prediction0 + RadiosOf(PredictionGroup, Added(present, ms[..i]))
        invariant training == training0 + RadiosOf(TrainingGroup, Added(present, ms[..i]))
      {
        var key := ms[i].0;
        ghost var added := Added(present, ms[..i]);
        AddedStep(present, training0, ms, i);
        if RadioId(key) !in Ids(training) {
          RadiosOfSnoc(PredictionGroup, added, ms[i]);
          RadiosOfSnoc(TrainingGroup, added, ms[i]);
          prediction := prediction + [Radio(PredictionGroup, RadioId(key), key, ms[i].1)];
          training := training + [Radio(TrainingGroup, RadioId(key), key, ms[i].1)];
        }
        i := i + 1;
      }
      assert ms[..i] == ms;
    }
  }

  /** One more model, one more radio at the end. */
  lemma RadiosOfSnoc(group: string, added: seq<(string, string)>, m: (string, string))
    ensures RadiosOf(group, added + [m]) == RadiosOf(group, added) + [Radio(group, RadioId(m.0), m.0, m.1)]
  {
    var rs := RadiosOf(group, added + [m]);
    assert forall i :: 0 <= i < |added| ==> rs[i] == RadiosOf(group, added)[i];
  }

  /** One turn of the loop: the id test on the current list is the test Added makes. */
  lemma AddedStep(present: set<string>, training0: seq<Radio>, ms: seq<(string, string)>, i: int)
    requires 0 <= i < |ms| && present == Ids(training0)
    ensures var added := Added(present, ms[..i]);
            var list := training0 + RadiosOf(TrainingGroup, added);
            Added(present, ms[..i + 1]) ==
              if RadioId(ms[i].0) in Ids(list) then added else added + [ms[i]]
  {
    var added := Added(present, ms[..i]);
    var rs := RadiosOf(TrainingGroup, added);
    var list := training0 + rs;
    assert ms[..i + 1][..i] == ms[..i];
    var key := ms[i].0;
    var listed := RadioId(key) in present || exists j :: 0 <= j < |added| && added[j].0 == key;
    assert Added(present, ms[..i + 1]) == if listed then added else added + [ms[i]];
    if RadioId(key) in present {
      var j :| 0 <= j < |training0| && training0[j].id == RadioId(key);
      assert list[j] == training0[j];
    } else if exists j :: 0 <= j < |added| && added[j].0 == key {
      var j :| 0 <= j < |added| && added[j].0 == key;
      assert list[|training0| + j] == rs[j];
    }
    if RadioId(key) in Ids(list) {
      var j :| 0 <= j < |list| && list[j].id == RadioId(key);
      if j >= |training0| {
        assert list[j] == rs[j - |training0|];
        RadioIdInjective(added[j - |training0|].0, key);
      } else {
        assert list[j] == training0[j];
      }
    }
  }
}
