/**
 * The decision layer of `CNNDetector` (models/detector.py): binding a model file, telling a
 * binary (sigmoid) head from a multiclass head, and turning the network's output row into
 * probabilities, a predicted index, a label and a confidence.
 *
 * The network itself is opaque: loading a file yields an output width or a failure, and a
 * forward pass yields the first row of the output tensor or a failure.
 */
module Detector {
  import opened Outcomes
  import opened Constants

  /** What the framework reports about a loaded model: the last dimension of its output. */
  datatype Model = Model(outputWidth: nat)

  /** A constructed detector: the model file it was bound to, the model, and the head kind. */
  datatype Detector = Detector(path: string, model: Option<Model>, binary: bool)

  /** The dictionary `predecir` returns, one field per key. */
  datatype Prediction = Prediction(
    probabilities: seq<real>,
    index: nat,
    classLabel: string,
    confidence: real,
    time: real)

  datatype DetectorError =
    | TensorFlowMissing      // ImportError in the constructor
    | ModelFileNotFound      // FileNotFoundError: explicit path does not exist
    | NoModelInCheckpoint    // FileNotFoundError: auto-detection found no .keras file
    | ModelLoadFailed        // RuntimeError wrapping a failed load_model
    | ModelNotLoaded         // RuntimeError: predecir with no model bound
    | PredictionFailed       // RuntimeError wrapping any failure inside predecir

  /** A model whose last output dimension is 1 has a sigmoid head. */
  predicate IsBinaryHead(m: Model) {
    m.outputWidth == 1
  }

  /**
   * The constructor of `CNNDetector` with `_cargar_modelo`: TensorFlow must be importable, the
   * path must exist, and the framework must load it. `loaded` is what `load_model` yields.
   */
  function Load(tensorFlow: bool, path: string, existing: set<string>, loaded: Option<Model>)
    : (r: Result<Detector, DetectorError>)
    ensures !tensorFlow ==> r == Err(TensorFlowMissing)
    ensures tensorFlow && path !in existing ==> r == Err(ModelFileNotFound)
    ensures tensorFlow && path in existing && loaded.None? ==> r == Err(ModelLoadFailed)
    ensures r.Ok? <==> tensorFlow && path in existing && loaded.Some?
    ensures r.Ok? ==> r.value.path == path && r.value.model == loaded
                      && (r.value.binary <==> loaded.value.outputWidth == 1)
  {
    if !tensorFlow then Err(TensorFlowMissing)
    else if path !in existing then Err(ModelFileNotFound)
    else match loaded
      case None => Err(ModelLoadFailed)
      case Some(m) => Ok(Detector(path, Some(m), IsBinaryHead(m)))
  }

  predicate EndsWith(s: string, suffix: string) {
    |suffix| <= |s| && s[|s| - |suffix|..] == suffix
  }

  /** The matches of the glob `*.keras` over a directory listing, in listing order. */
  function KerasFiles(listing: seq<string>): (r: seq<string>)
    ensures forall x :: x in r <==> x in listing && EndsWith(x, ".keras")
    ensures |r| <= |listing|
  {
    if listing == [] then []
    else if EndsWith(listing[0], ".keras") then [listing[0]] + KerasFiles(listing[1..])
    else KerasFiles(listing[1..])
  }

  /** The first `.keras` entry of a listing that has one is the head of `KerasFiles`. */
  lemma {:induction false} KerasFilesHeadIsFirstMatch(listing: seq<string>)
    requires KerasFiles(listing) != []
    ensures exists i :: 0 <= i < |listing| && listing[i] == KerasFiles(listing)[0]
                        && forall j :: 0 <= j < i ==> !EndsWith(listing[j], ".keras")
  {
    if !EndsWith(listing[0], ".keras") {
      KerasFilesHeadIsFirstMatch(listing[1..]);
      var i :| 0 <= i < |listing[1..]| && listing[1..][i] == KerasFiles(listing[1..])[0]
               && forall j :: 0 <= j < i ==> !EndsWith(listing[1..][j], ".keras");
      assert listing[i + 1] == KerasFiles(listing)[0];
      forall j | 0 <= j < i + 1 ensures !EndsWith(listing[j], ".keras") {
        if j > 0 { assert listing[j] == listing[1..][j - 1]; }
      }
    } else {
      assert listing[0] == KerasFiles(listing)[0];
    }
  }

  /**
   * `crear_detector`: with no path, the first `.keras` file of the checkpoint directory listing;
   * otherwise the given path. `loader` is what `load_model` yields for a path.
   */
  function CreateDetector(
    path: Option<string>, listing: seq<string>, tensorFlow: bool, existing: set<string>,
    loader: string -> Option<Model>)
    : (r: Result<Detector, DetectorError>)
    ensures path.None? && KerasFiles(listing) == [] ==> r == Err(NoModelInCheckpoint)
    ensures path.Some? && tensorFlow && path.value !in existing ==> r == Err(ModelFileNotFound)
    ensures r.Ok? && path.Some? ==> r.value.path == path.value
    ensures r.Ok? && path.None? ==>
      exists i :: 0 <= i < |listing| && listing[i] == r.value.path && EndsWith(listing[i], ".keras")
                  && forall j :: 0 <= j < i ==> !EndsWith(listing[j], ".keras")
  {
    match path
    case Some(p) => Load(tensorFlow, p, existing, loader(p))
    case None =>
      var found := KerasFiles(listing);
      if found == [] then Err(NoModelInCheckpoint)
      else
        KerasFilesHeadIsFirstMatch(listing);
        Load(tensorFlow, found[0], existing, loader(found[0]))
  }

  /**
   * The model of `AnalizadorDefectos.__init__`: no model in simulation mode; otherwise a detector
   * from the given path when it is a non-empty string, or auto-detected when it is absent or empty.
   */
  function AnalyzerModel(
    useRealModel: bool, path: Option<string>, listing: seq<string>, tensorFlow: bool,
    existing: set<string>, loader: string -> Option<Model>)
    : (r: Result<Option<Detector>, DetectorError>)
    ensures !useRealModel ==> r == Ok(None)
    ensures r.Ok? && useRealModel ==> r.value.Some?
    ensures useRealModel && (path.None? || path.value == "") && KerasFiles(listing) == []
            ==> r == Err(NoModelInCheckpoint)
    ensures r.Ok? && useRealModel && path.Some? && path.value != "" ==> r.value.value.path == path.value
  {
    if !useRealModel then Ok(None)
    else
      var explicit := if path.Some? && path.value != "" then path else None;
      match CreateDetector(explicit, listing, tensorFlow, existing, loader)
      case Ok(d) => Ok(Some(d))
      case Err(e) => Err(e)
  }

  /** `np.argmax`: the first index of a maximal entry. */
  function ArgMax(s: seq<real>): (k: nat)
    requires |s| > 0
    ensures k < |s|
    ensures forall j :: 0 <= j < |s| ==> s[j] <= s[k]
    ensures forall j :: 0 <= j < k ==> s[j] < s[k]
  {
    if |s| == 1 then 0
    else
      var k := ArgMax(s[..|s| - 1]);
      if s[|s| - 1] > s[k] then |s| - 1 else k
  }

  /**
   * The probabilities `predecir` derives from the output row: `[1 - s, s]` for a sigmoid head
   * (failing when the row is empty), the row itself otherwise.
   */
  function Probabilities(binary: bool, row: seq<real>): (r: Option<seq<real>>)
    ensures binary ==> (r.Some? <==> |row| > 0)
    ensures binary && r.Some? ==> |r.value| == 2 && r.value[1] == row[0]
                                  && r.value[0] + r.value[1] == 1.0
    ensures !binary ==> r == Some(row)
  {
    if !binary then Some(row)
    else if |row| == 0 then None
    else Some([1.0 - row[0], row[0]])
  }

  /**
   * `predecir` after the forward pass. `row` is the first row of the network's output, or None
   * when preprocessing or `predict` raised; `elapsed` is the measured latency. An empty
   * probability vector (argmax raises) or an index past the class list (indexing raises) is a
   * failure, like every other exception inside the try block.
   */
  function Predict(d: Detector, row: Option<seq<real>>, elapsed: real): (r: Result<Prediction, DetectorError>)
    ensures d.model.None? ==> r == Err(ModelNotLoaded)
    ensures d.model.Some? && row.None? ==> r == Err(PredictionFailed)
    ensures r.Ok? ==>
      var p := r.value;
      && row.Some?
      && Probabilities(d.binary, row.value) == Some(p.probabilities)
      && p.index < |p.probabilities| && p.index < |Classes|
      && p.classLabel == Classes[p.index]
      && p.confidence == p.probabilities[p.index]
      && (forall j :: 0 <= j < |p.probabilities| ==> p.probabilities[j] <= p.confidence)
      && (forall j :: 0 <= j < p.index ==> p.probabilities[j] < p.confidence)
      && p.time == elapsed
    ensures d.model.Some? && d.binary && row.Some? && |row.value| > 0 ==> r.Ok?
  {
    if d.model.None? then Err(ModelNotLoaded)
    else if row.None? then Err(PredictionFailed)
    else match Probabilities(d.binary, row.value)
      case None => Err(PredictionFailed)
      case Some(probs) =>
        if |probs| == 0 then Err(PredictionFailed)
        else
          var idx := ArgMax(probs);
          if idx >= |Classes| then Err(PredictionFailed)
          else Ok(Prediction(probs, idx, Classes[idx], probs[idx], elapsed))
  }

  /**
   * For a sigmoid head with output s: OK exactly when s > 1 - s (so a tie goes to DEFECT),
   * the probabilities are (1 - s, s), and the confidence is the larger of the two.
   */
  lemma BinaryPrediction(d: Detector, s: real, rest: seq<real>, elapsed: real)
    requires d.model.Some? && d.binary
    ensures Predict(d, Some([s] + rest), elapsed).Ok?
    ensures var p := Predict(d, Some([s] + rest), elapsed).value;
      && p.probabilities == [1.0 - s, s]
      && (p.index == 1 <==> s > 0.5)
      && (p.classLabel == OkLabel <==> s > 0.5)
      && (p.classLabel == DefectLabel <==> s <= 0.5)
      && p.confidence == (if s > 0.5 then s else 1.0 - s)
  {
    var p := Predict(d, Some([s] + rest), elapsed).value;
    assert p.probabilities == [1.0 - s, s];
    assert Classes[0] == DefectLabel && Classes[1] == OkLabel;
    if s > 0.5 {
      assert p.probabilities[0] < p.probabilities[1];
    } else {
      assert p.probabilities[1] <= p.probabilities[0];
    }
  }

  /** A detector as `Load` builds it: the head kind agrees with the model's output width. */
  predicate Consistent(d: Detector) {
    d.model.Some? ==> d.binary == IsBinaryHead(d.model.value)
  }

  /** Every detector `Load` returns is consistent. */
  lemma LoadIsConsistent(tensorFlow: bool, path: string, existing: set<string>, loaded: Option<Model>)
    requires Load(tensorFlow, path, existing, loaded).Ok?
    ensures Consistent(Load(tensorFlow, path, existing, loaded).value)
  {
  }

  /**
   * A successful prediction from a row of the model's own output width carries both class
   * probabilities: two for a sigmoid head, and for a multiclass head a width that is neither 1
   * (that would be a sigmoid head) nor 0 (argmax raises).
   */
  lemma {:induction false} PredictionHasBothClasses(d: Detector, row: seq<real>, elapsed: real)
    requires Consistent(d) && d.model.Some? && |row| == d.model.value.outputWidth
    requires Predict(d, Some(row), elapsed).Ok?
    ensures |Predict(d, Some(row), elapsed).value.probabilities| >= 2
  {
    if !d.binary {
      assert Probabilities(d.binary, row) == Some(row);
      assert |row| != 1;
    }
  }

  /**
   * For a multiclass head the output row is used as the probabilities, and the prediction
   * succeeds exactly when the row is non-empty and its first maximum is one of the two classes.
   */
  lemma MulticlassPrediction(d: Detector, row: seq<real>, elapsed: real)
    requires d.model.Some? && !d.binary
    ensures Predict(d, Some(row), elapsed).Ok? <==> |row| > 0 && ArgMax(row) < 2
    ensures Predict(d, Some(row), elapsed).Ok? ==>
      Predict(d, Some(row), elapsed).value.probabilities == row
  {
  }
}
