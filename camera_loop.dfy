/**
 * The camera capture loop of src/hooks/useCameraLoop.ts as a state machine.
 *
 * The hook's state (`cameraActive`, `cameraReady`, the permission) and refs
 * (`takingPictureRef`, `captureTimeoutRef`) are fields; each handler is a
 * method. Handlers run one at a time, as on the JavaScript event loop; an
 * await splits a handler into a method for its synchronous start and a method
 * for its end (`CaptureFinished`).
 *
 * The loop effect starts a fresh `loop` closure each time it runs with all
 * three flags true; loops are numbered in start order. The `cancelled` flag of
 * loop `g` is true exactly when `liveLoop != Some(g)`: the effect's cleanup is
 * the only writer of that flag. The two ghost fields describe the event
 * loop's own pending work: whether the timer in `captureTimeoutRef` is still
 * armed, and which loops have a `captureFrame` awaiting.
 */
module CameraLoop {
  import opened Wrappers
  import opened Preprocess
  import opened CatClassifier

  /** The camera permission held by the permissions hook: not yet known, or a response. */
  datatype Permission = Unknown | Response(granted: bool)

  /** What `requestPermission` gives when the permission is not yet known. */
  datatype PermissionRequest = Answer(granted: bool) | RequestThrew

  /** Whether toggling the camera on finds camera access granted. */
  predicate AccessGranted(p: Permission, request: PermissionRequest)
  {
    if p.Response? then p.granted else request.Answer? && request.granted
  }

  /** How a started capture ends, with what its awaits returned. */
  datatype FrameOutcome =
    | PictureFailed
    | NoUri
    | ResizeFailed
    | Resized(decoded: Option<Raster>, run: RunOutcome, now: int)

  class CameraLoop {
    /** The classifier hook the camera loop feeds and reports through. */
    const hook: Classifier
    var permission: Permission
    var cameraActive: bool
    var cameraReady: bool
    /** `takingPictureRef.current`, the re-entrancy guard. */
    var takingPicture: bool
    /** `captureTimeoutRef.current`: the last timer set, tagged with the loop it resumes. */
    var captureTimeout: Option<nat>
    /** The loop whose effect cleanup has not run yet; every other loop is cancelled. */
    var liveLoop: Option<nat>
    var loopsStarted: nat
    /** The timer in `captureTimeout` has not fired and was not cleared. */
    ghost var timerPending: bool
    /** The loops with a capture in flight, each counted once per capture. */
    ghost var capturing: multiset<nat>

    /**
     * A pending timer always resumes the live loop, and never while that
     * loop's own capture is in flight; no loop ever has two captures in
     * flight; the guard is only raised while some capture is in flight.
     */
    ghost predicate Valid()
      reads this, hook
    {
      && hook.Valid()
      && (timerPending ==> captureTimeout.Some? && liveLoop == captureTimeout && capturing[captureTimeout.value] == 0)
      && (liveLoop.Some? ==> liveLoop.value < loopsStarted)
      && (forall g :: g in capturing ==> g < loopsStarted && capturing[g] == 1)
      && (takingPicture ==> |capturing| > 0)
    }

    constructor (hook: Classifier, permission: Permission)
      requires hook.Valid()
      ensures Valid()
      ensures this.hook == hook && this.permission == permission
      ensures !cameraActive && !cameraReady && !takingPicture && captureTimeout.None? && liveLoop.None?
      ensures loopsStarted == 0 && !timerPending && capturing == multiset{}
    {
      this.hook := hook;
      this.permission := permission;
      cameraActive := false;
      cameraReady := false;
      takingPicture := false;
      captureTimeout := None;
      liveLoop := None;
      loopsStarted := 0;
      timerPending := false;
      capturing := multiset{};
    }

    /** `stopCameraCapture`: clear the timer, drop the guard, forget the silent status, un-ready the camera. */
    method StopCameraCapture()
      requires Valid()
      modifies this`captureTimeout, this`timerPending, this`takingPicture, this`cameraReady, hook`lastSilent
      ensures Valid()
      ensures captureTimeout.None? && !timerPending && !takingPicture && !cameraReady
      ensures hook.lastSilent == FORGOTTEN
    {
      if captureTimeout.Some? {
        captureTimeout := None;
        timerPending := false;
      }
      takingPicture := false;
      hook.ResetSilentStatus();
      cameraReady := false;
    }

    /**
     * The synchronous part of `captureFrame` as loop `g` calls it. `ready`,
     * `active` and `camReady` are the values its closure captured. A capture
     * starts only if all three hold, a camera is mounted and the guard is down.
     */
    method CaptureFrame(g: nat, ready: bool, active: bool, camReady: bool, cameraPresent: bool)
      returns (started: bool)
      requires Valid() && g < loopsStarted && capturing[g] == 0 && !timerPending
      modifies this`takingPicture, this`capturing
      ensures Valid()
      ensures started <==> ready && active && camReady && cameraPresent && !old(takingPicture)
      ensures started ==> takingPicture && capturing == old(capturing) + multiset{g}
      ensures !started ==> takingPicture == old(takingPicture) && capturing == old(capturing)
    {
      if !ready || !active || !camReady {
        return false;
      }
      if !cameraPresent || takingPicture {
        return false;
      }
      takingPicture := true;
      capturing := capturing + multiset{g};
      started := true;
    }

    /**
     * One turn of loop `g`: nothing if it was cancelled; otherwise a capture,
     * and when no capture starts, the next turn is scheduled straight away.
     * A loop only exists for a render in which `ready`, `cameraActive` and
     * `cameraReady` were all true, and its `captureFrame` closure is the one
     * of that render, so the first check of `captureFrame` passes here.
     */
    method RunLoop(g: nat, cameraPresent: bool)
      requires Valid() && g < loopsStarted && capturing[g] == 0 && !timerPending
      modifies this`takingPicture, this`capturing, this`captureTimeout, this`timerPending
      ensures Valid()
      ensures liveLoop != Some(g) ==>
        && takingPicture == old(takingPicture) && capturing == old(capturing)
        && captureTimeout == old(captureTimeout) && !timerPending
      ensures liveLoop == Some(g) && cameraPresent && !old(takingPicture) ==>
        && takingPicture && capturing == old(capturing) + multiset{g}
        && captureTimeout == old(captureTimeout) && !timerPending
      ensures liveLoop == Some(g) && !(cameraPresent && !old(takingPicture)) ==>
        && takingPicture == old(takingPicture) && capturing == old(capturing)
        && captureTimeout == Some(g) && timerPending
    {
      if liveLoop != Some(g) {
        return;
      }
      var started := CaptureFrame(g, true, true, true, cameraPresent);
      if !started {
        captureTimeout := Some(g);
        timerPending := true;
      }
    }

    /**
     * The loop effect, run after a render: first the cleanup of the previous
     * run (cancel its loop, stop capturing) if that run started a loop, then
     * the body with the values of the render. The loop runs only if
     * `cameraActive`, `cameraReady` and `ready` all hold; otherwise capture stops.
     */
    method LoopEffect(cameraPresent: bool)
      requires Valid()
      modifies this`liveLoop, this`loopsStarted, this`captureTimeout, this`timerPending, this`takingPicture,
        this`cameraReady, this`capturing, hook`lastSilent, hook`status
      ensures Valid()
      ensures liveLoop.Some? <==> old(cameraActive) && old(cameraReady) && old(hook.ready)
      ensures !(old(cameraActive) && old(cameraReady) && old(hook.ready)) ==>
        && captureTimeout.None? && !timerPending && !takingPicture && !cameraReady
        && hook.lastSilent == FORGOTTEN && capturing == old(capturing) && loopsStarted == old(loopsStarted)
        && hook.status == (if old(cameraActive) && old(hook.ready) then CameraWaiting else old(hook.status))
      ensures old(cameraActive) && old(cameraReady) && old(hook.ready) ==>
        && liveLoop == Some(old(loopsStarted)) && loopsStarted == old(loopsStarted) + 1
        && hook.status == CameraRunning
        && (old(liveLoop).Some? ==> !cameraReady && hook.lastSilent == FORGOTTEN)
        && (old(liveLoop).None? ==> cameraReady == old(cameraReady) && hook.lastSilent == old(hook.lastSilent))
      ensures old(cameraActive) && old(cameraReady) && old(hook.ready) ==>
        var guardDown := old(liveLoop).Some? || !old(takingPicture);
        && (cameraPresent && guardDown ==>
              && capturing == old(capturing) + multiset{old(loopsStarted)} && takingPicture && !timerPending
              && captureTimeout == (if old(liveLoop).Some? then None else old(captureTimeout)))
        && (!(cameraPresent && guardDown) ==>
              && capturing == old(capturing) && timerPending && captureTimeout == Some(old(loopsStarted))
              && takingPicture == (old(liveLoop).None? && old(takingPicture)))
    {
      var active, camReady, isReady := cameraActive, cameraReady, hook.ready;
      if liveLoop.Some? {
        StopCameraCapture();
        liveLoop := None;
      }
      if !active || !camReady || !isReady {
        StopCameraCapture();
        if active && isReady {
          hook.UpdateStatus(CameraWaiting);
        }
        return;
      }
      hook.UpdateStatus(CameraRunning);
      var g := loopsStarted;
      loopsStarted := loopsStarted + 1;
      liveLoop := Some(g);
      RunLoop(g, cameraPresent);
    }

    /**
     * The capture timer fires and its loop takes another turn. If the guard
     * is still up the turn is skipped and the next one scheduled: ticks are
     * never queued.
     */
    method TimerFires(cameraPresent: bool)
      requires Valid() && timerPending
      modifies this`timerPending, this`takingPicture, this`capturing, this`captureTimeout
      ensures Valid()
      ensures cameraPresent && !old(takingPicture) ==>
        && capturing == old(capturing) + multiset{old(captureTimeout).value}
        && takingPicture && !timerPending && captureTimeout == old(captureTimeout)
      ensures !(cameraPresent && !old(takingPicture)) ==>
        && capturing == old(capturing) && takingPicture == old(takingPicture)
        && timerPending && captureTimeout == old(captureTimeout)
    {
      timerPending := false;
      var g := captureTimeout.value;
      RunLoop(g, cameraPresent);
    }

    /**
     * The end of the capture of loop `g`: a photo with a URI is resized and
     * classified in silent mode, the guard is dropped in `finally`, and only a
     * loop that was not cancelled schedules its next turn.
     */
    method CaptureFinished(g: nat, frame: FrameOutcome)
      requires Valid() && g in capturing
      requires frame.Resized? && frame.decoded.Some? ==> frame.decoded.value.WellFormed()
      modifies this`capturing, this`takingPicture, this`captureTimeout, this`timerPending,
        hook`status, hook`busy, hook`busyLog, hook`probTopK, hook`lastSilent
      ensures Valid()
      ensures capturing == old(capturing) - multiset{g} && !takingPicture
      ensures hook.busy == old(hook.busy) && hook.busyLog == old(hook.busyLog)
      ensures liveLoop == Some(g) ==> timerPending && captureTimeout == Some(g)
      ensures liveLoop != Some(g) ==> timerPending == old(timerPending) && captureTimeout == old(captureTimeout)
      ensures !frame.Resized? ==>
        && hook.status == old(hook.status) && hook.probTopK == old(hook.probTopK)
        && hook.lastSilent == old(hook.lastSilent)
      ensures frame.Resized? && hook.session.None? ==>
        hook.status == ModelStillLoading && hook.probTopK == old(hook.probTopK) && hook.lastSilent == old(hook.lastSilent)
      ensures frame.Resized? && hook.session.Some? ==>
        var outcome := ClassifyOutcome(frame.decoded, frame.run, hook.labels, hook.exp);
        && (outcome.Success? ==> hook.probTopK == outcome.value)
        && (outcome.Failure? ==>
              && hook.status == CameraClassificationFailed && hook.probTopK == old(hook.probTopK)
              && hook.lastSilent == old(hook.lastSilent))
        && (outcome.Success? && outcome.value == [] ==>
              hook.status == old(hook.status) && hook.lastSilent == old(hook.lastSilent))
      ensures frame.Resized? && hook.session.Some? ==>
        var outcome := ClassifyOutcome(frame.decoded, frame.run, hook.labels, hook.exp);
        outcome.Success? && outcome.value != [] ==>
          var best := outcome.value[0];
          if ShouldRepublish(old(hook.lastSilent), best.name, frame.now)
          then hook.status == CameraGuess(best.name, best.p) && hook.lastSilent == SilentMemory(best.name, frame.now)
          else hook.status == old(hook.status) && hook.lastSilent == old(hook.lastSilent)
    {
      if frame.Resized? {
        var _ := hook.ClassifyBase64(frame.decoded, true, frame.run, frame.now);
      }
      capturing := capturing - multiset{g};
      takingPicture := false;
      if liveLoop == Some(g) {
        // The live loop's capture was in flight, so its timer was not armed: nothing is overwritten.
        assert !timerPending;
        captureTimeout := Some(g);
        timerPending := true;
      }
    }

    /**
     * `toggleCamera`. When active: stop capturing and deactivate. When
     * inactive: refuse while the model is not ready, then ask for permission
     * if none is known, and activate only with access granted.
     * `cameraReady` is left for `HandleCameraReady` to raise.
     */
    method ToggleCamera(request: PermissionRequest)
      requires Valid()
      modifies this`cameraActive, this`permission, this`captureTimeout, this`timerPending, this`takingPicture,
        this`cameraReady, hook`lastSilent, hook`status, hook`previewUri
      ensures Valid()
      ensures old(cameraActive) ==>
        && !cameraActive && captureTimeout.None? && !timerPending && !takingPicture && !cameraReady
        && hook.lastSilent == FORGOTTEN && permission == old(permission) && hook.previewUri == old(hook.previewUri)
        && hook.status == (if hook.ready then Done else old(hook.status))
      ensures !old(cameraActive) ==>
        && cameraReady == old(cameraReady) && takingPicture == old(takingPicture)
        && captureTimeout == old(captureTimeout) && timerPending == old(timerPending)
        && hook.lastSilent == old(hook.lastSilent)
      ensures !old(cameraActive) && !hook.ready ==>
        && !cameraActive && permission == old(permission) && hook.status == ModelStillLoading
        && hook.previewUri == old(hook.previewUri)
      ensures !old(cameraActive) && hook.ready ==>
        && (cameraActive <==> AccessGranted(old(permission), request))
        && permission == (if old(permission).Unknown? && request.Answer? then Response(request.granted) else old(permission))
        && hook.status == (if cameraActive then CameraStarting
                           else if old(permission).Unknown? && request.RequestThrew? then CameraFailed
                           else CameraAccessDenied)
        && hook.previewUri == (if cameraActive then None else old(hook.previewUri))
    {
      if cameraActive {
        StopCameraCapture();
        cameraActive := false;
        if hook.ready {
          hook.UpdateStatus(Done);
        }
        return;
      }
      if !hook.ready {
        hook.UpdateStatus(ModelStillLoading);
        return;
      }
      if permission.Unknown? {
        match request {
          case RequestThrew =>
            hook.UpdateStatus(CameraFailed);
            return;
          case Answer(granted) =>
            permission := Response(granted);
        }
      }
      if !permission.granted {
        hook.UpdateStatus(CameraAccessDenied);
        return;
      }
      hook.SetPreviewUri(None);
      cameraActive := true;
      hook.UpdateStatus(CameraStarting);
    }

    /** `handleCameraReady`: the mounted camera reports that it can take pictures. */
    method HandleCameraReady()
      requires Valid()
      modifies this`cameraReady, hook`status
      ensures Valid()
      ensures cameraReady && hook.status == CameraIsReady
    {
      cameraReady := true;
      hook.UpdateStatus(CameraIsReady);
    }

    /** `handleMountError`: the camera failed to mount; it is always deactivated. */
    method HandleMountError()
      requires Valid()
      modifies this`cameraActive, hook`status
      ensures Valid()
      ensures !cameraActive && hook.status == CameraFailed
    {
      hook.UpdateStatus(CameraFailed);
      cameraActive := false;
    }

    /** Unmounting the hook: the unmount effect's cleanup, then the loop effect's cleanup (declaration order). */
    method Unmount()
      requires Valid()
      modifies this`liveLoop, this`cameraActive, this`captureTimeout, this`timerPending, this`takingPicture,
        this`cameraReady, hook`lastSilent
      ensures Valid()
      ensures liveLoop.None? && !cameraActive && !cameraReady && !takingPicture
      ensures captureTimeout.None? && !timerPending && hook.lastSilent == FORGOTTEN
    {
      StopCameraCapture();
      cameraActive := false;
      if liveLoop.Some? {
        StopCameraCapture();
        liveLoop := None;
      }
    }
  }

  /**
   * `stopCameraCapture` drops the guard while a capture may still be
   * awaiting. Stopping the camera and starting it again while the live loop's
   * capture is in flight therefore lets the new loop start a capture before
   * the old one has finished: captures never overlap within one loop, but two
   * loops can each have one in flight.
   */
  method RestartWhileCapturing(cam: CameraLoop)
    requires cam.Valid() && cam.hook.ready && cam.permission == Response(true)
    requires cam.cameraActive && cam.liveLoop.Some? && cam.capturing == multiset{cam.liveLoop.value}
    modifies cam, cam.hook
    ensures cam.Valid() && cam.takingPicture && cam.liveLoop == Some(old(cam.loopsStarted))
    ensures cam.capturing == multiset{old(cam.liveLoop).value, old(cam.loopsStarted)}
  {
    cam.ToggleCamera(RequestThrew);
    cam.LoopEffect(true);
    assert cam.liveLoop.None? && !cam.takingPicture && cam.loopsStarted == old(cam.loopsStarted);
    cam.ToggleCamera(RequestThrew);
    cam.HandleCameraReady();
    cam.LoopEffect(true);
  }
}
