/**
 * The stateful part of src/hooks/useCatClassifier.ts: the session reference,
 * the busy and ready flags, the status line, the last published top-K list
 * and the memory behind the silent-mode status debounce.
 *
 * The hook's React state and refs become the fields of one object; every
 * handler becomes a method. The ONNX session is opaque: loading it and
 * running it are parameters (`LoadOutcome`, `RunOutcome`), and so are the
 * base64/JPEG decoding of the image and the wall clock (`now`).
 */
module CatClassifier {
  import opened Wrappers
  import opened Config
  import opened Preprocess
  import opened Postprocess

  /**
   * The status line. The app shows Polish text with an emoji; only the
   * meaning of each message is kept. The camera messages are published by
   * the camera loop through `UpdateStatus`.
   */
  datatype Status =
    | Initializing
    | ModelStillLoading
    | Classifying
    | Done
    | CameraGuess(name: string, p: real)
    | ClassificationFailed
    | CameraClassificationFailed
    | LoadingModel
    | ModelLoadFailed
    | CameraStarting
    | CameraIsReady
    | CameraAccessDenied
    | CameraFailed
    | CameraWaiting
    | CameraRunning

  /** An opaque inference session with the input names it declares. */
  datatype Session = Session(id: nat, inputNames: seq<string>)

  /** The name the input tensor is bound to: the first declared input, else `input`. */
  function InputName(s: Session): (n: string)
    ensures n in s.inputNames || (s.inputNames == [] && n == "input")
    ensures s.inputNames != [] ==> n == s.inputNames[0]
  {
    if s.inputNames != [] then s.inputNames[0] else "input"
  }

  /** What one `session.run` call gave back. */
  datatype RunOutcome = RunFailed | Ran(outputs: seq<OutputTensor>)

  /** What one `loadModel` call ends with once its awaits are done. */
  datatype LoadOutcome = StagingFailed | CreationFailed | Created(session: Session)

  /** Why a classification produced no result (each one is an exception the hook catches). */
  datatype ClassifyError = DecodeFailed | WrongShape(shape: ShapeError) | InferenceFailed | NoOutput

  /**
   * Image to top-3 predictions. `decoded` is None when base64 or JPEG decoding
   * throws; otherwise the shape check, the session run and the post-processing
   * follow in that order.
   */
  function ClassifyOutcome(decoded: Option<Raster>, run: RunOutcome, labels: seq<string>, exp: real -> real)
    : (r: Result<seq<Prediction>, ClassifyError>)
    ensures r.Success? <==>
      decoded.Some? && decoded.value.width == INPUT_SIDE && decoded.value.height == INPUT_SIDE &&
      run.Ran? && run.outputs != []
    ensures r.Success? ==> |r.value| == Min(3, |Lookup(run.outputs, ResolveOutputName(Keys(run.outputs)).value).value|)
    ensures decoded.Some? && (decoded.value.width != INPUT_SIDE || decoded.value.height != INPUT_SIDE) ==>
      r == Failure(WrongShape(ShapeError(decoded.value.width, decoded.value.height)))
  {
    if decoded.None? then Failure(DecodeFailed)
    else if decoded.value.width != INPUT_SIDE || decoded.value.height != INPUT_SIDE then
      Failure(WrongShape(ShapeError(decoded.value.width, decoded.value.height)))
    else if run.RunFailed? then Failure(InferenceFailed)
    else
      match RankOutputs(run.outputs, labels, exp)
      case Failure(_) => Failure(NoOutput)
      case Success(top) => Success(top)
  }

  // ---------------------------------------------------------------------------
  // Silent-status debounce

  /** The label and time of the last silent status that was published. */
  datatype SilentMemory = SilentMemory(name: string, timestamp: int)

  /** The memory after `resetSilentStatus`. */
  const FORGOTTEN: SilentMemory := SilentMemory("", 0)

  /** A silent result is published when its best label is new or the last publication is older than the interval. */
  predicate ShouldRepublish(mem: SilentMemory, name: string, now: int): (b: bool)
    ensures name != mem.name ==> b
    ensures name == mem.name ==> (b <==> now > mem.timestamp + CAMERA_STATUS_INTERVAL_MS)
  {
    name != mem.name || now - mem.timestamp > CAMERA_STATUS_INTERVAL_MS
  }

  /** One silent classification's best label and the time it finished. */
  datatype Sighting = Sighting(name: string, now: int)

  /** The status publications a run of silent classifications makes, starting from memory `mem`. */
  function Republished(mem: SilentMemory, sightings: seq<Sighting>): (r: seq<SilentMemory>)
    ensures |r| <= |sightings|
    decreases |sightings|
  {
    if sightings == [] then []
    else if ShouldRepublish(mem, sightings[0].name, sightings[0].now) then
      [SilentMemory(sightings[0].name, sightings[0].now)] +
        Republished(SilentMemory(sightings[0].name, sightings[0].now), sightings[1..])
    else Republished(mem, sightings[1..])
  }

  /** What is remembered before publication `j`: the starting memory, then each publication in turn. */
  function Previous(mem: SilentMemory, pubs: seq<SilentMemory>, j: nat): SilentMemory
    requires j <= |pubs|
  {
    if j == 0 then mem else pubs[j - 1]
  }

  /**
   * Consecutive publications never repeat a label within the interval: each
   * one either changes the label or comes more than 900 ms after the one before.
   */
  lemma {:induction false} RepublishSpacing(mem: SilentMemory, sightings: seq<Sighting>)
    ensures forall j :: 0 <= j < |Republished(mem, sightings)| ==>
      Republished(mem, sightings)[j].name != Previous(mem, Republished(mem, sightings), j).name ||
      Republished(mem, sightings)[j].timestamp - Previous(mem, Republished(mem, sightings), j).timestamp
        > CAMERA_STATUS_INTERVAL_MS
    decreases |sightings|
  {
    if sightings != [] {
      var s := sightings[0];
      var pubs := Republished(mem, sightings);
      if ShouldRepublish(mem, s.name, s.now) {
        var next := SilentMemory(s.name, s.now);
        RepublishSpacing(next, sightings[1..]);
        var rest := Republished(next, sightings[1..]);
        assert pubs == [next] + rest;
        forall j | 1 <= j < |pubs|
          ensures Previous(mem, pubs, j) == Previous(next, rest, j - 1)
        {
        }
      } else {
        RepublishSpacing(mem, sightings[1..]);
      }
    }
  }

  /** Every publication repeats one of the sightings: label and time are never invented. */
  lemma {:induction false} RepublishedAreSightings(mem: SilentMemory, sightings: seq<Sighting>)
    ensures forall m :: m in Republished(mem, sightings) ==> Sighting(m.name, m.timestamp) in sightings
    decreases |sightings|
  {
    if sightings != [] {
      var s := sightings[0];
      if ShouldRepublish(mem, s.name, s.now) {
        RepublishedAreSightings(SilentMemory(s.name, s.now), sightings[1..]);
      } else {
        RepublishedAreSightings(mem, sightings[1..]);
      }
    }
  }

  /** While the label stays the same and the interval has not passed, nothing is published. */
  lemma {:induction false} QuietWithinInterval(mem: SilentMemory, sightings: seq<Sighting>)
    requires forall j :: 0 <= j < |sightings| ==>
      sightings[j].name == mem.name && sightings[j].now - mem.timestamp <= CAMERA_STATUS_INTERVAL_MS
    ensures Republished(mem, sightings) == []
  {
    if sightings != [] {
      QuietWithinInterval(mem, sightings[1..]);
    }
  }

  /** After a reset, any non-empty label is published at once. */
  lemma ResetForcesRepublish(name: string, now: int)
    requires name != ""
    ensures ShouldRepublish(FORGOTTEN, name, now)
  {
  }

  // ---------------------------------------------------------------------------
  // The hook's state

  class Classifier {
    var status: Status
    var busy: bool
    var ready: bool
    var previewUri: Option<string>
    var probTopK: seq<Prediction>
    /** `sessionRef.current`. */
    var session: Option<Session>
    /** `lastSilentStatusRef.current`. */
    var lastSilent: SilentMemory
    /** Every value ever passed to `setBusy`, oldest first. */
    ghost var busyLog: seq<bool>
    /** The labels resource, index-aligned with the model's classes. */
    const labels: seq<string>
    /** Stands for Math.exp. */
    const exp: real -> real

    /** Whenever the hook reports ready, a session is loaded. */
    ghost predicate Valid()
      reads this
    {
      ready ==> session.Some?
    }

    constructor (labels: seq<string>, exp: real -> real)
      ensures Valid()
      ensures status == Initializing && !busy && !ready && previewUri.None? && probTopK == []
      ensures session.None? && lastSilent == FORGOTTEN && busyLog == []
      ensures this.labels == labels && this.exp == exp
    {
      status := Initializing;
      busy := false;
      ready := false;
      previewUri := None;
      probTopK := [];
      session := None;
      lastSilent := FORGOTTEN;
      busyLog := [];
      this.labels := labels;
      this.exp := exp;
    }

    /** `updateStatus`: replaces the status line. */
    method UpdateStatus(s: Status)
      modifies this`status
      ensures status == s
    {
      status := s;
    }

    /** `setPreviewUri`. */
    method SetPreviewUri(uri: Option<string>)
      modifies this`previewUri
      ensures previewUri == uri
    {
      previewUri := uri;
    }

    /** `resetSilentStatus`: forget the last silent publication. */
    method ResetSilentStatus()
      modifies this`lastSilent
      ensures lastSilent == FORGOTTEN
    {
      lastSilent := FORGOTTEN;
    }

    /** The synchronous start of `loadModel`: readiness is withdrawn before anything else. */
    method BeginLoadModel()
      requires Valid()
      modifies this`ready, this`status
      ensures Valid()
      ensures !ready && status == LoadingModel
    {
      ready := false;
      status := LoadingModel;
    }

    /**
     * The end of `loadModel`, after staging the model files and creating the
     * session. Ready is set only after the session is stored; a failure keeps
     * the old session and does not touch `ready`.
     */
    method FinishLoadModel(outcome: LoadOutcome)
      requires Valid()
      modifies this`ready, this`status, this`session
      ensures Valid()
      ensures outcome.Created? ==> session == Some(outcome.session) && ready && status == Done
      ensures !outcome.Created? ==> session == old(session) && ready == old(ready) && status == ModelLoadFailed
    {
      match outcome {
        case Created(s) =>
          session := Some(s);
          status := Done;
          ready := true;
        case _ =>
          status := ModelLoadFailed;
      }
    }

    /** A `loadModel` (or `reloadModel`) call with nothing interleaved between its start and its end. */
    method LoadModel(outcome: LoadOutcome)
      requires Valid()
      modifies this`ready, this`status, this`session
      ensures Valid()
      ensures ready <==> outcome.Created?
      ensures session == if outcome.Created? then Some(outcome.session) else old(session)
      ensures status == if outcome.Created? then Done else ModelLoadFailed
    {
      BeginLoadModel();
      FinishLoadModel(outcome);
    }

    /** Preprocessing, the session run and post-processing: the `try` block of `classifyBase64`. */
    method Infer(decoded: Option<Raster>, run: RunOutcome) returns (outcome: Result<seq<Prediction>, ClassifyError>)
      requires decoded.Some? ==> decoded.value.WellFormed()
      ensures outcome == ClassifyOutcome(decoded, run, labels, exp)
    {
      if decoded.None? {
        return Failure(DecodeFailed);
      }
      var chw: Result<array<real>, ShapeError>;
      ghost var writes: seq<nat>;
      chw, writes := ChwFromRgba224(decoded.value, IMAGENET_MEAN, IMAGENET_STD);
      if chw.Failure? {
        return Failure(WrongShape(chw.error));
      }
      if run.RunFailed? {
        return Failure(InferenceFailed);
      }
      var keys := Keys(run.outputs);
      var name := ResolveOutputName(keys);
      if name.None? {
        return Failure(NoOutput);
      }
      var data := Lookup(run.outputs, name.value).value;
      var probs: seq<real>;
      if name.value in PROB_ALIASES {
        probs := data;
      } else {
        probs := Softmax(data, exp);
      }
      return Success(Label(TopK(probs, 3), labels));
    }

    /**
     * `classifyBase64`. Without a session it only reports that the model is
     * loading. A foreground call raises `busy` before the work and lowers it
     * afterwards, on success and on error alike; a silent call never touches
     * `busy`. A silent success republishes the status line only as the
     * debounce allows.
     */
    method ClassifyBase64(decoded: Option<Raster>, silent: bool, run: RunOutcome, now: int)
      returns (r: Option<seq<Prediction>>)
      requires Valid()
      requires decoded.Some? ==> decoded.value.WellFormed()
      modifies this`status, this`busy, this`busyLog, this`probTopK, this`lastSilent
      ensures Valid()
      ensures session.None? ==>
        r.None? && status == ModelStillLoading && busy == old(busy) && busyLog == old(busyLog) &&
        probTopK == old(probTopK) && lastSilent == old(lastSilent)
      ensures session.Some? && silent ==> busy == old(busy) && busyLog == old(busyLog)
      ensures session.Some? && !silent ==> !busy && busyLog == old(busyLog) + [true, false]
      ensures session.Some? ==>
        var outcome := ClassifyOutcome(decoded, run, labels, exp);
        (r.Some? <==> outcome.Success?) &&
        (outcome.Success? ==> r.value == outcome.value && probTopK == outcome.value) &&
        (outcome.Failure? ==>
          && probTopK == old(probTopK)
          && lastSilent == old(lastSilent)
          && status == (if silent then CameraClassificationFailed else ClassificationFailed))
      ensures session.Some? && r.Some? && !silent ==> status == Done && lastSilent == old(lastSilent)
      ensures session.Some? && r.Some? && silent && r.value == [] ==>
        status == old(status) && lastSilent == old(lastSilent)
      ensures session.Some? && r.Some? && silent && r.value != [] ==>
        var best := r.value[0];
        if ShouldRepublish(old(lastSilent), best.name, now)
        then status == CameraGuess(best.name, best.p) && lastSilent == SilentMemory(best.name, now)
        else status == old(status) && lastSilent == old(lastSilent)
    {
      if session.None? {
        status := ModelStillLoading;
        return None;
      }
      if !silent {
        busy := true;
        busyLog := busyLog + [true];
        status := Classifying;
      }
      var outcome := Infer(decoded, run);
      match outcome {
        case Success(top) =>
          probTopK := top;
          if !silent {
            status := Done;
          } else if |top| > 0 {
            var best := top[0];
            if ShouldRepublish(lastSilent, best.name, now) {
              status := CameraGuess(best.name, best.p);
              lastSilent := SilentMemory(best.name, now);
            }
          }
          r := Some(top);
        case Failure(_) =>
          status := if silent then CameraClassificationFailed else ClassificationFailed;
          r := None;
      }
      if !silent {
        busy := false;
        busyLog := busyLog + [false];
      }
    }
  }
}
