/** What happens when a process or sub-process has become active: its first start
    event is activated inside it, or the start record that was deferred for it is
    published; either way the container gains a token. */
module ContainerActivation {
  import opened Records
  import opened ElementInstances
  import opened Streams
  import opened Steps

  /** The two ways the step can fail: the container has no start event (the first
      one is read from an empty list), or it has to publish a deferred record and
      none is stored for it (an `IllegalStateException`). */
  datatype HandlerError = NoStartEvent | NoDeferredRecord

  /** The outcome of a step that did not fail: whether it was handled, the world
      after it and the record being processed, as the step left it. */
  datatype Activation = Activation(handled: bool, world: World, value: WorkflowInstanceRecord)

  /** Whether the first start event is activated inside the container: a none start
      event, or the start event of an event sub-process. Otherwise the container
      was started by an event whose record was deferred. */
  predicate ActivatesStartEvent(first: ExecutableStartEvent) {
    first.isNone || first.eventSubProcess.Some?
  }

  /** The record being processed, turned into the activation of `first` inside the
      container with key `containerKey`. */
  function StartEventRecord(value: WorkflowInstanceRecord, containerKey: Key, first: ExecutableStartEvent): WorkflowInstanceRecord {
    value.(elementId := first.id, bpmnElementType := first.elementType, flowScopeKey := containerKey)
  }

  /** The whole step, as a function of the world before it. `key` and `value` are the
      key and record of the container, `inherited` what the inherited activation
      step answered. */
  function ContainerActivated(w: World, key: Key, value: WorkflowInstanceRecord,
                              container: ExecutableFlowElementContainer, inherited: bool): Result<Activation, HandlerError>
    requires key in w.instances
  {
    if !inherited then Success(Activation(false, w, value))
    else if container.startEvents == [] then Failure(NoStartEvent)
    else
      var first := container.startEvents[0];
      if ActivatesStartEvent(first) then
        var activating := StartEventRecord(value, key, first);
        Success(Activation(true,
          w.(log := w.log + [LogEntry(NewEvent, w.nextKey, ElementActivating, activating)],
             nextKey := w.nextKey + 1,
             instances := AddTokens(w.instances, key, 1)),
          activating))
      else
        var deferred := DeferredRecordsOf(Lookup(w.stored, key));
        if deferred == [] then Failure(NoDeferredRecord)
        else
          var d := deferred[0];
          Success(Activation(true,
            w.(log := w.log + [LogEntry(FollowUpEvent, d.key, d.state, d.value)],
               stored := RemoveAt(w.stored, key, d.key, Deferred),
               instances := AddTokens(w.instances, key, 1)),
            value))
  }

  // ---------------------------------------------------------------------------
  // Properties of the step

  /** The step fails exactly when the inherited step succeeded and either there is no
      start event, or the first start event is not activated inside the container and
      the container has no deferred record; a failing step reports which. */
  lemma FailsExactly(w: World, key: Key, value: WorkflowInstanceRecord, container: ExecutableFlowElementContainer, inherited: bool)
    requires key in w.instances
    ensures var r := ContainerActivated(w, key, value, container, inherited);
      && (r.Failure? <==>
           inherited && (container.startEvents == []
                         || (!ActivatesStartEvent(container.startEvents[0]) && DeferredRecordsOf(Lookup(w.stored, key)) == [])))
      && (r == Failure(NoStartEvent) <==> inherited && container.startEvents == [])
      && (r.Success? ==> (r.value.handled <==> inherited))
  {
  }

  /** The container has no deferred record exactly when none of its stored records is
      a deferred one; so the step fails for lack of one exactly when nothing was
      deferred for the container. */
  lemma {:induction false} NoDeferredRecordIffNoneStored(stored: seq<StoredRecord>)
    ensures DeferredRecordsOf(stored) == [] <==> forall s :: s in stored ==> s.purpose != Deferred
  {
    if stored != [] {
      NoDeferredRecordIffNoneStored(stored[1..]);
      if stored[0].purpose != Deferred {
        forall s | s in stored ensures s == stored[0] || s in stored[1..] {
        }
      }
    }
  }

  /** When the inherited step did not succeed, nothing changes. */
  lemma NotInheritedChangesNothing(w: World, key: Key, value: WorkflowInstanceRecord, container: ExecutableFlowElementContainer)
    requires key in w.instances
    ensures ContainerActivated(w, key, value, container, false) == Success(Activation(false, w, value))
  {
  }

  /** A handled step spawns exactly one token, on the container, and no other instance
      changes. */
  lemma SpawnsOneToken(w: World, key: Key, value: WorkflowInstanceRecord, container: ExecutableFlowElementContainer, inherited: bool)
    requires key in w.instances
    requires ContainerActivated(w, key, value, container, inherited).Success?
    ensures var a := ContainerActivated(w, key, value, container, inherited).value;
      a.handled ==>
        && a.world.instances.Keys == w.instances.Keys
        && a.world.instances[key].activeTokens == w.instances[key].activeTokens + 1
        && a.world.instances[key] == w.instances[key].SpawnToken()
        && forall k :: k in w.instances && k != key ==> a.world.instances[k] == w.instances[k]
  {
  }

  /** Only the first start event of the container decides what the step does. */
  lemma FirstStartEventDecides(w: World, key: Key, value: WorkflowInstanceRecord,
                               c1: ExecutableFlowElementContainer, c2: ExecutableFlowElementContainer, inherited: bool)
    requires key in w.instances
    requires c1.startEvents != [] && c2.startEvents != [] && c1.startEvents[0] == c2.startEvents[0]
    ensures ContainerActivated(w, key, value, c1, inherited) == ContainerActivated(w, key, value, c2, inherited)
  {
  }

  /** Activating the first start event appends one new ELEMENT_ACTIVATING event under a
      fresh key; its record is the container's record with the id and type of the start
      event and the container as flow scope. The store is untouched. */
  lemma ActivatesFirstStartEvent(w: World, key: Key, value: WorkflowInstanceRecord, container: ExecutableFlowElementContainer)
    requires key in w.instances
    requires container.startEvents != [] && ActivatesStartEvent(container.startEvents[0])
    ensures var r := ContainerActivated(w, key, value, container, true);
      var first := container.startEvents[0];
      && r.Success? && r.value.handled
      && r.value.world.log == w.log + [LogEntry(NewEvent, w.nextKey, ElementActivating, r.value.value)]
      && r.value.world.nextKey == w.nextKey + 1
      && r.value.value.elementId == first.id
      && r.value.value.bpmnElementType == first.elementType
      && r.value.value.flowScopeKey == key
      && r.value.value.bpmnProcessId == value.bpmnProcessId
      && r.value.value.version == value.version
      && r.value.value.workflowKey == value.workflowKey
      && r.value.value.workflowInstanceKey == value.workflowInstanceKey
      && r.value.world.stored == w.stored
  {
  }

  /** Publishing the deferred record appends it, as a follow-up event under its own key
      with its stored intent and record, takes no fresh key and leaves the record being
      processed as it was. The published record is one the container had stored as
      deferred. */
  lemma PublishesStoredRecord(w: World, key: Key, value: WorkflowInstanceRecord, container: ExecutableFlowElementContainer)
    requires key in w.instances
    requires container.startEvents != [] && !ActivatesStartEvent(container.startEvents[0])
    requires DeferredRecordsOf(Lookup(w.stored, key)) != []
    ensures var r := ContainerActivated(w, key, value, container, true);
      && r.Success? && r.value.handled && r.value.value == value && r.value.world.nextKey == w.nextKey
      && |r.value.world.log| == |w.log| + 1 && r.value.world.log[..|w.log|] == w.log
      && var e := r.value.world.log[|w.log|];
         && e.kind == FollowUpEvent
         && StoredRecord(IndexedRecord(e.key, e.intent, e.value), Deferred) in Lookup(w.stored, key)
  {
    var d := DeferredRecordsOf(Lookup(w.stored, key))[0];
    assert d in DeferredRecordsOf(Lookup(w.stored, key));
  }

  /** When the container has its single deferred record, publishing it leaves the
      container with no deferred record; every other record of the container stays,
      and the records of every other scope are untouched. */
  lemma PublishingRemovesTheDeferredRecord(w: World, key: Key, value: WorkflowInstanceRecord, container: ExecutableFlowElementContainer)
    requires key in w.instances
    requires container.startEvents != [] && !ActivatesStartEvent(container.startEvents[0])
    requires |DeferredRecordsOf(Lookup(w.stored, key))| == 1
    ensures var r := ContainerActivated(w, key, value, container, true);
      var d := DeferredRecordsOf(Lookup(w.stored, key))[0];
      && r.Success?
      && DeferredRecordsOf(Lookup(r.value.world.stored, key)) == []
      && (forall s :: s in Lookup(w.stored, key) && s != StoredRecord(d, Deferred) ==> s in Lookup(r.value.world.stored, key))
      && forall scope :: scope != key ==> Lookup(r.value.world.stored, scope) == Lookup(w.stored, scope)
  {
    var stored := Lookup(w.stored, key);
    var d := DeferredRecordsOf(stored)[0];
    RemoveOnlyDeferred(stored);
    var after := Lookup(ContainerActivated(w, key, value, container, true).value.world.stored, key);
    assert after == RemoveRecord(stored, d.key, Deferred);
    NoDeferredRecordIffNoneStored(after);
  }

  /** Storing a deferred record for a container that has none and then activating the
      container publishes exactly that record and gives the store back as it was. */
  lemma DeferThenPublish(w: World, key: Key, value: WorkflowInstanceRecord, container: ExecutableFlowElementContainer,
                         record: IndexedRecord)
    requires key in w.instances
    requires container.startEvents != [] && !ActivatesStartEvent(container.startEvents[0])
    requires DeferredRecordsOf(Lookup(w.stored, key)) == []
    ensures var deferred := w.(stored := StoreAt(w.stored, key, StoredRecord(record, Deferred)));
      var r := ContainerActivated(deferred, key, value, container, true);
      && r.Success?
      && r.value.world.log == w.log + [LogEntry(FollowUpEvent, record.key, record.state, record.value)]
      && forall scope :: Lookup(r.value.world.stored, scope) == Lookup(w.stored, scope)
  {
    var stored := Lookup(w.stored, key);
    var s := StoredRecord(record, Deferred);
    NoDeferredRecordIffNoneStored(stored);
    DeferredAppend(stored, s);
    assert DeferredRecordsOf(Lookup(StoreAt(w.stored, key, s), key)) == [record];
    RemoveAtUndoesStoreAt(w.stored, key, s);
  }

  /** The deferred records of a list with one more record at the end. */
  lemma {:induction false} DeferredAppend(stored: seq<StoredRecord>, s: StoredRecord)
    ensures DeferredRecordsOf(stored + [s]) == DeferredRecordsOf(stored) + (if s.purpose == Deferred then [s.record] else [])
  {
    if stored == [] {
      assert [s][1..] == [];
    } else {
      assert (stored + [s])[1..] == stored[1..] + [s];
      DeferredAppend(stored[1..], s);
    }
  }

  // ---------------------------------------------------------------------------
  // The handler

  /** The handler for a container whose element has been activated. `workflowState`
      is the store it removes the published deferred record from. */
  class ContainerElementActivatedHandler {
    const workflowState: ElementInstanceState

    constructor (workflowState: ElementInstanceState)
      ensures this.workflowState == workflowState
    {
      this.workflowState := workflowState;
    }

    /** `handleState`; `inherited` is what the inherited activation step answered. */
    method HandleState(ctx: StepContext<ExecutableFlowElementContainer>, inherited: bool) returns (r: Result<bool, HandlerError>)
      requires ctx.Valid() && ctx.state == workflowState && ctx.key in ctx.state.instances
      requires inherited && ctx.element.startEvents != [] && !ActivatesStartEvent(ctx.element.startEvents[0])
               ==> |ctx.state.GetDeferredRecords(ctx.key)| <= 1
      modifies ctx, ctx.output, ctx.state, ctx.keys
      ensures ctx.Valid()
      ensures match ContainerActivated(old(ctx.Snapshot()), ctx.key, old(ctx.value), ctx.element, inherited)
        case Success(a) => r == Success(a.handled) && ctx.Snapshot() == a.world && ctx.value == a.value
        case Failure(e) => r == Failure(e) && ctx.Snapshot() == old(ctx.Snapshot()) && ctx.value == old(ctx.value)
    {
      if !inherited {
        return Success(false);
      }
      var element := ctx.element;
      if element.startEvents == [] {
        return Failure(NoStartEvent);
      }
      var firstStartEvent := element.startEvents[0];
      if firstStartEvent.isNone || firstStartEvent.eventSubProcess.Some? {
        ActivateNoneStartEvent(ctx, firstStartEvent);
      } else {
        var error := PublishDeferredRecord(ctx);
        if error.Some? {
          return Failure(error.value);
        }
      }
      ctx.state.SpawnToken(ctx.key);
      return Success(true);
    }

    /** `publishDeferredRecord`: appends the deferred record as a follow-up event, or
        reports that there was none, changing nothing. */
    method PublishDeferredRecord(ctx: StepContext<ExecutableFlowElementContainer>) returns (error: Option<HandlerError>)
      requires ctx.Valid() && ctx.state == workflowState && |ctx.state.GetDeferredRecords(ctx.key)| <= 1
      modifies ctx.output, ctx.state
      ensures ctx.Valid()
      ensures var deferred := old(ctx.state.GetDeferredRecords(ctx.key));
        if deferred == [] then
          error == Some(NoDeferredRecord) && ctx.Snapshot() == old(ctx.Snapshot())
        else
          var d := deferred[0];
          && error == None
          && ctx.Snapshot() == old(ctx.Snapshot()).(
               log := old(ctx.output.entries) + [LogEntry(FollowUpEvent, d.key, d.state, d.value)],
               stored := RemoveAt(old(ctx.state.stored), ctx.key, d.key, Deferred))
    {
      var deferredRecord := GetDeferredRecord(ctx);
      if deferredRecord.Failure? {
        return Some(deferredRecord.error);
      }
      var d := deferredRecord.value;
      ctx.output.AppendFollowUpEvent(d.key, d.state, d.value);
      return None;
    }

    /** `activateNoneStartEvent`: turns the record being processed into the activation of
        `firstStartEvent` inside the container and appends it as a new event. */
    method ActivateNoneStartEvent(ctx: StepContext<ExecutableFlowElementContainer>, firstStartEvent: ExecutableStartEvent)
      requires ctx.Valid()
      modifies ctx, ctx.output, ctx.keys
      ensures ctx.Valid()
      ensures ctx.value == StartEventRecord(old(ctx.value), ctx.key, firstStartEvent)
      ensures ctx.Snapshot() == old(ctx.Snapshot()).(
        log := old(ctx.output.entries) + [LogEntry(NewEvent, old(ctx.keys.next), ElementActivating, ctx.value)],
        nextKey := old(ctx.keys.next) + 1)
    {
      var value := ctx.value;
      value := value.(elementId := firstStartEvent.id);
      value := value.(bpmnElementType := firstStartEvent.elementType);
      value := value.(flowScopeKey := ctx.key);
      ctx.value := value;
      var _ := ctx.output.AppendNewEvent(ElementActivating, value);
    }

    /** `getDeferredRecord`: takes the first deferred record of the container out of the
        store and returns it, or reports that there is none, changing nothing. */
    method GetDeferredRecord(ctx: StepContext<ExecutableFlowElementContainer>) returns (r: Result<IndexedRecord, HandlerError>)
      requires ctx.Valid() && ctx.state == workflowState && |ctx.state.GetDeferredRecords(ctx.key)| <= 1
      modifies workflowState
      ensures ctx.Valid()
      ensures var deferred := old(ctx.state.GetDeferredRecords(ctx.key));
        if deferred == [] then
          r == Failure(NoDeferredRecord) && ctx.state.stored == old(ctx.state.stored)
        else
          r == Success(deferred[0]) && ctx.state.stored == RemoveAt(old(ctx.state.stored), ctx.key, deferred[0].key, Deferred)
      ensures ctx.state.instances == old(ctx.state.instances) && ctx.state.childKeys == old(ctx.state.childKeys)
    {
      var scopeKey := ctx.key;
      var deferredRecords := ctx.state.GetDeferredRecords(scopeKey);
      if deferredRecords == [] {
        return Failure(NoDeferredRecord);
      }
      var deferredRecord := deferredRecords[0];
      workflowState.RemoveStoredRecord(scopeKey, deferredRecord.key, Deferred);
      return Success(deferredRecord);
    }
  }
}
