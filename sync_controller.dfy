/**
 * The start/stop state machine of UIDataTypeController
 * (chrome/browser/sync/glue/ui_data_type_controller.cc). The collaborators the
 * controller consults (the StartModels hook, SharedChangeProcessor::Connect, the
 * cryptographer, the sync model and the merge) are reduced to boolean outcomes
 * passed in by the caller; callbacks are recorded as events together with what
 * a callback that re-enters the controller would observe.
 */
module SyncGlue {
  import opened Wrappers

  /** Identity of a callback handed to the controller. */
  type Callback = nat

  /** DataTypeController::State. */
  datatype State = NotRunning | ModelStarting | ModelLoaded | Associating | Running | Stopping | Disabled

  /** DataTypeController::StartResult, in declaration order. */
  datatype StartResult =
    | Ok | OkFirstRun | Busy | NotEnabled | AssociationFailed | Aborted
    | UnrecoverableError | NeedsCrypto | RuntimeError

  /** Position of a result in the StartResult enumeration. */
  function Ordinal(r: StartResult): nat
  {
    match r
    case Ok => 0
    case OkFirstRun => 1
    case Busy => 2
    case NotEnabled => 3
    case AssociationFailed => 4
    case Aborted => 5
    case UnrecoverableError => 6
    case NeedsCrypto => 7
    case RuntimeError => 8
  }

  /** A result is successful when it is not past OK_FIRST_RUN in the enumeration. */
  function IsSuccessfulResult(r: StartResult): (b: bool)
    ensures b <==> r == Ok || r == OkFirstRun
  {
    Ordinal(r) <= Ordinal(OkFirstRun)
  }

  /** The SyncError a model-load callback receives (DATATYPE_ERROR with a message), or none. */
  datatype LoadError = ModelAlreadyLoaded | LoadAborted

  /** What a callback sees of the controller at the moment it runs. */
  datatype Observed = Observed(state: State, slotCleared: bool, hasChangeProcessor: bool)

  datatype Event =
    | ModelLoadCallbackRan(callback: Callback, error: Option<LoadError>, seen: Observed)
    | StartCallbackRan(callback: Callback, result: StartResult, seen: Observed)
    | ChangeProcessorDisconnected
    | LocalServiceStoppedSyncing

  /**
   * The answers Associate gets from its collaborators, in the order it asks:
   * whether Connect returned a local service, whether the cryptographer is
   * ready, whether SyncModelHasUserCreatedNodes could read the model and what it
   * found, whether GetAllSyncDataReturnError set an error and whether the merge
   * reported one.
   */
  datatype AssociationOutcome = AssociationOutcome(
    connected: bool, cryptoReady: bool, nodesReadable: bool, syncHasNodes: bool,
    syncDataError: bool, mergeError: bool)

  /** The StartResult Associate hands to StartDone. */
  function AssociationResult(o: AssociationOutcome): (r: StartResult)
    ensures IsSuccessfulResult(r) <==>
      o.connected && o.cryptoReady && o.nodesReadable && !o.syncDataError && !o.mergeError
    ensures r == Ok ==> o.syncHasNodes
    ensures r == OkFirstRun ==> !o.syncHasNodes
    ensures r == AssociationFailed <==>
      !o.connected || (o.cryptoReady && o.nodesReadable && (o.syncDataError || o.mergeError))
    ensures r == NeedsCrypto <==> o.connected && !o.cryptoReady
    ensures r == UnrecoverableError <==> o.connected && o.cryptoReady && !o.nodesReadable
  {
    if !o.connected then AssociationFailed
    else if !o.cryptoReady then NeedsCrypto
    else if !o.nodesReadable then UnrecoverableError
    else if o.syncDataError then AssociationFailed
    else if o.mergeError then AssociationFailed
    else if o.syncHasNodes then Ok
    else OkFirstRun
  }

  /** The state StartDone leaves behind for a result, given the state it found. */
  function StateAfterStart(r: StartResult, s: State): (t: State)
    ensures IsSuccessfulResult(r) ==> t == s
    ensures !IsSuccessfulResult(r) ==> t != s || s == NotRunning || s == Disabled
    ensures !IsSuccessfulResult(r) ==> (t == Disabled <==> r == AssociationFailed)
    ensures !IsSuccessfulResult(r) && r != AssociationFailed ==> t == NotRunning
  {
    if IsSuccessfulResult(r) then s
    else if r == AssociationFailed then Disabled
    else NotRunning
  }

  class UIDataTypeController {
    var state: State
    var modelLoadCallback: Option<Callback>
    var startCallback: Option<Callback>
    /** shared_change_processor_ is non-null. */
    var hasChangeProcessor: bool
    /** local_service_ is non-null: the last association's Connect returned a service. */
    var hasLocalService: bool
    var events: seq<Event>

    /**
     * Between calls: no start callback is held (StartDone always clears it), a
     * model-load callback is held exactly while the model is starting, and a
     * change processor is held exactly in the states between LoadModels and Stop.
     */
    predicate Valid()
      reads this
    {
      && state != Associating && state != Stopping
      && startCallback.None?
      && (modelLoadCallback.Some? <==> state == ModelStarting)
      && (hasChangeProcessor <==> state == ModelStarting || state == ModelLoaded || state == Running)
    }

    function Now(): Observed
      reads this
    {
      Observed(state, modelLoadCallback.None? && startCallback.None?, hasChangeProcessor)
    }

    constructor()
      ensures Valid() && state == NotRunning && events == [] && !hasLocalService
    {
      state := NotRunning;
      modelLoadCallback := None;
      startCallback := None;
      hasChangeProcessor := false;
      hasLocalService := false;
      events := [];
    }

    /**
     * LoadModels(callback). `modelsStarted` is what the StartModels hook
     * returns; the default hook returns true. A controller that is not stopped
     * reports "Model already loaded" and changes nothing.
     */
    method LoadModels(callback: Callback, modelsStarted: bool)
      requires Valid()
      modifies this
      ensures Valid() && hasLocalService == old(hasLocalService)
      ensures old(state) != NotRunning ==>
        && state == old(state) && hasChangeProcessor == old(hasChangeProcessor)
        && modelLoadCallback == old(modelLoadCallback)
        && events == old(events) + [ModelLoadCallbackRan(callback, Some(ModelAlreadyLoaded), old(Now()))]
      ensures old(state) == NotRunning && !modelsStarted ==>
        && state == ModelStarting && modelLoadCallback == Some(callback) && events == old(events)
      ensures old(state) == NotRunning && modelsStarted ==>
        && state == ModelLoaded && modelLoadCallback.None?
        && events == old(events) + [ModelLoadCallbackRan(callback, None, Observed(ModelLoaded, true, true))]
    {
      if state != NotRunning {
        events := events + [ModelLoadCallbackRan(callback, Some(ModelAlreadyLoaded), Now())];
        return;
      }
      hasChangeProcessor := true;
      modelLoadCallback := Some(callback);
      state := ModelStarting;
      if !modelsStarted {
        return;
      }
      state := ModelLoaded;
      modelLoadCallback := None;
      events := events + [ModelLoadCallbackRan(callback, None, Now())];
    }

    /** OnModelLoaded: the model finished loading; the stored callback is cleared, then run. */
    method OnModelLoaded()
      requires Valid() && state == ModelStarting
      modifies this
      ensures Valid() && state == ModelLoaded && modelLoadCallback.None?
      ensures hasChangeProcessor && hasLocalService == old(hasLocalService)
      ensures events == old(events) + [ModelLoadCallbackRan(old(modelLoadCallback).value, None, Observed(ModelLoaded, true, true))]
    {
      state := ModelLoaded;
      var callback := modelLoadCallback.value;
      modelLoadCallback := None;
      events := events + [ModelLoadCallbackRan(callback, None, Now())];
    }

    /**
     * StartAssociating(callback): stores the callback, enters ASSOCIATING and
     * associates; the controller ends RUNNING on success, otherwise DISABLED or
     * NOT_RUNNING, and never ASSOCIATING.
     */
    method StartAssociating(callback: Callback, outcome: AssociationOutcome)
      requires Valid() && state == ModelLoaded
      modifies this
      ensures Valid() && state != Associating
      ensures var r := AssociationResult(outcome);
        && state == (if IsSuccessfulResult(r) then Running else StateAfterStart(r, Associating))
        && hasChangeProcessor == IsSuccessfulResult(r)
        && hasLocalService == outcome.connected
        && events == old(events)
           + (if IsSuccessfulResult(r) then [] else [ChangeProcessorDisconnected])
           + [StartCallbackRan(callback, r, Observed(state, true, hasChangeProcessor))]
    {
      startCallback := Some(callback);
      state := Associating;
      Associate(outcome);
    }

    /** Associate: only the branches that decide the result, and the RUNNING state on success. */
    method Associate(outcome: AssociationOutcome)
      requires state == Associating && startCallback.Some? && modelLoadCallback.None? && hasChangeProcessor
      modifies this
      ensures var r := AssociationResult(outcome);
        && state == (if IsSuccessfulResult(r) then Running else StateAfterStart(r, Associating))
        && startCallback.None? && modelLoadCallback.None?
        && hasChangeProcessor == IsSuccessfulResult(r)
        && hasLocalService == outcome.connected
        && events == old(events)
           + (if IsSuccessfulResult(r) then [] else [ChangeProcessorDisconnected])
           + [StartCallbackRan(old(startCallback).value, r, Observed(state, true, hasChangeProcessor))]
    {
      hasLocalService := outcome.connected;
      var result := AssociationResult(outcome);
      if IsSuccessfulResult(result) {
        state := Running;
      }
      StartDone(result);
    }

    /**
     * StartDone(result): on failure the controller becomes DISABLED (for
     * ASSOCIATION_FAILED) or NOT_RUNNING and disconnects and drops its change
     * processor; in every case start_callback_ is cleared before it is run.
     */
    method StartDone(result: StartResult)
      requires startCallback.Some?
      modifies this
      ensures state == StateAfterStart(result, old(state))
      ensures startCallback.None? && modelLoadCallback == old(modelLoadCallback)
      ensures hasLocalService == old(hasLocalService)
      ensures hasChangeProcessor == (old(hasChangeProcessor) && IsSuccessfulResult(result))
      ensures events == old(events)
        + (if !IsSuccessfulResult(result) && old(hasChangeProcessor) then [ChangeProcessorDisconnected] else [])
        + [StartCallbackRan(old(startCallback).value, result, Now())]
    {
      if !IsSuccessfulResult(result) {
        if result == AssociationFailed {
          state := Disabled;
        } else {
          state := NotRunning;
        }
        if hasChangeProcessor {
          events := events + [ChangeProcessorDisconnected];
          hasChangeProcessor := false;
        }
      }
      var callback := startCallback.value;
      startCallback := None;
      events := events + [StartCallbackRan(callback, result, Now())];
    }

    /**
     * AbortModelLoad: stops, drops the change processor without disconnecting it,
     * then clears the model-load callback and runs it with an "Aborted" error.
     */
    method AbortModelLoad()
      requires modelLoadCallback.Some?
      modifies this
      ensures state == NotRunning && modelLoadCallback.None? && !hasChangeProcessor
      ensures startCallback == old(startCallback) && hasLocalService == old(hasLocalService)
      ensures events == old(events)
        + [ModelLoadCallbackRan(old(modelLoadCallback).value, Some(LoadAborted), Now())]
    {
      state := NotRunning;
      hasChangeProcessor := false;
      var callback := modelLoadCallback.value;
      modelLoadCallback := None;
      events := events + [ModelLoadCallbackRan(callback, Some(LoadAborted), Now())];
    }

    /**
     * Stop: disconnects the change processor if there is one; a stop while the
     * model is starting aborts the load, any other stop stops the local service
     * if there is one. Either way the controller ends NOT_RUNNING.
     */
    method Stop()
      requires Valid()
      modifies this
      ensures Valid() && state == NotRunning && !hasChangeProcessor
      ensures hasLocalService == old(hasLocalService)
      ensures events == old(events)
        + (if old(hasChangeProcessor) then [ChangeProcessorDisconnected] else [])
        + (if old(state) == ModelStarting
           then [ModelLoadCallbackRan(old(modelLoadCallback).value, Some(LoadAborted), Observed(NotRunning, true, false))]
           else if hasLocalService then [LocalServiceStoppedSyncing] else [])
    {
      var prevState := state;
      state := Stopping;
      if hasChangeProcessor {
        events := events + [ChangeProcessorDisconnected];
        hasChangeProcessor := false;
      }
      if prevState == ModelStarting {
        AbortModelLoad();
        return;
      }
      if hasLocalService {
        events := events + [LocalServiceStoppedSyncing];
      }
      state := NotRunning;
    }
  }
}
