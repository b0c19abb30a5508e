/** The step that runs when a start event of an event sub-process occurs: it
    activates the event sub-process in the flow scope of the start event, and, when
    the start event is interrupting, first terminates what is running in that scope. */
module EventSubProcess {
  import opened Records
  import opened ElementInstances
  import opened Streams
  import opened Steps

  // ---------------------------------------------------------------------------
  // Specification

  /** The record of the event sub-process to activate: a reset record filled from
      the triggering event. */
  function ContainerRecord(event: WorkflowInstanceRecord, subProcessId: string): WorkflowInstanceRecord {
    EmptyRecord.(
      elementId := subProcessId,
      bpmnElementType := SubProcess,
      bpmnProcessId := event.bpmnProcessId,
      workflowKey := event.workflowKey,
      version := event.version,
      workflowInstanceKey := event.workflowInstanceKey,
      flowScopeKey := event.flowScopeKey)
  }

  /** The log entries that terminate the children that can terminate, in order. */
  function TerminateEntries(children: seq<ElementInstance>): (r: seq<LogEntry>)
    ensures |r| <= |children|
    ensures forall e :: e in r ==> e.kind == FollowUpEvent && e.intent == ElementTerminating
  {
    if children == [] then []
    else
      var child := children[0];
      (if child.canTerminate then [LogEntry(FollowUpEvent, child.key, ElementTerminating, child.value)] else [])
      + TerminateEntries(children[1..])
  }

  /** How many tokens are consumed on the scope: one per child that cannot terminate. */
  function ConsumedTokens(children: seq<ElementInstance>): (r: nat)
    ensures r <= |children|
  {
    if children == [] then 0
    else (if children[0].canTerminate then 0 else 1) + ConsumedTokens(children[1..])
  }

  /** Whether the activation has to wait until some child has terminated. */
  predicate WaitForTermination(children: seq<ElementInstance>) {
    children != [] && (children[0].canTerminate || WaitForTermination(children[1..]))
  }

  /** The world after the children `children` of scope `scopeKey` have been interrupted. */
  function Interrupted(w: World, scopeKey: Key, children: seq<ElementInstance>): World
    requires scopeKey in w.instances
  {
    w.(log := w.log + TerminateEntries(children),
       instances := AddTokens(w.instances, scopeKey, -(ConsumedTokens(children) as int)))
  }

  /** The activation of the container in the interrupting case: deferred into the
      store of the scope when something has to terminate first, written to the log
      otherwise; either way under a fresh key, which is returned. */
  function ActivateAfterInterrupt(w: World, scopeKey: Key, container: WorkflowInstanceRecord, wait: bool): (World, Key) {
    if wait then
      (w.(stored := StoreAt(w.stored, scopeKey, StoredRecord(IndexedRecord(w.nextKey, ElementActivating, container), Deferred)),
          nextKey := w.nextKey + 1),
       w.nextKey)
    else
      (w.(log := w.log + [LogEntry(NewEvent, w.nextKey, ElementActivating, container)], nextKey := w.nextKey + 1),
       w.nextKey)
  }

  /** The scope instance after the step: one more token, and the interrupting event key set. */
  function ScopeUpdated(instances: map<Key, ElementInstance>, scopeKey: Key, interruptingKey: Key): map<Key, ElementInstance>
    requires scopeKey in instances
  {
    instances[scopeKey := instances[scopeKey].SpawnToken().SetInterruptingEventKey(interruptingKey)]
  }

  /** `shouldHandleState`: the flow scope of the start event is an active instance. */
  predicate ShouldHandle(w: World, event: WorkflowInstanceRecord)
    ensures ShouldHandle(w, event) ==> event.flowScopeKey in w.instances
  {
    IsElementActive(if event.flowScopeKey in w.instances then Some(w.instances[event.flowScopeKey]) else None)
  }

  datatype Step = Step(handled: bool, world: World)

  /** The whole step, as a function of the world before it. `key` and `event` are the
      key and record of the start event, `trigger` what `getTriggeredEvent` found. */
  function EventSubProcessStep(w: World, key: Key, event: WorkflowInstanceRecord, start: ExecutableStartEvent,
                         trigger: Option<EventTrigger>): Step
    requires event.flowScopeKey in w.instances && start.eventSubProcess.Some?
  {
    if trigger.None? then Step(false, w)
    else
      var scopeKey := event.flowScopeKey;
      var container := ContainerRecord(event, start.eventSubProcess.value);
      var children := Children(w, scopeKey);
      var (activated, interruptingKey) :=
        if start.interrupting then
          ActivateAfterInterrupt(Interrupted(w, scopeKey, children), scopeKey, container, WaitForTermination(children))
        else
          (w.(log := w.log + [LogEntry(FollowUpEvent, key, ElementActivating, container)]), NoKey);
      Step(true, activated.(instances := ScopeUpdated(activated.instances, scopeKey, interruptingKey)))
  }

  // ---------------------------------------------------------------------------
  // Properties of the interrupting loop

  /** Interrupting a list of children piece by piece is interrupting it at once. */
  lemma {:induction false} InterruptSplits(a: seq<ElementInstance>, b: seq<ElementInstance>)
    ensures TerminateEntries(a + b) == TerminateEntries(a) + TerminateEntries(b)
    ensures ConsumedTokens(a + b) == ConsumedTokens(a) + ConsumedTokens(b)
    ensures WaitForTermination(a + b) == (WaitForTermination(a) || WaitForTermination(b))
  {
    if a == [] {
      assert a + b == b;
    } else {
      assert (a + b)[1..] == a[1..] + b;
      InterruptSplits(a[1..], b);
    }
  }

  /** Interrupting a single child. */
  lemma InterruptOne(child: ElementInstance)
    ensures TerminateEntries([child]) == if child.canTerminate then [LogEntry(FollowUpEvent, child.key, ElementTerminating, child.value)] else []
    ensures ConsumedTokens([child]) == if child.canTerminate then 0 else 1
    ensures WaitForTermination([child]) == child.canTerminate
  {
    assert [child][1..] == [];
  }

  function TerminatedUpTo(children: seq<ElementInstance>, n: nat): seq<LogEntry>
    requires n <= |children|
  {
    if n == 0 then [] else TerminatedUpTo(children, n - 1) + TerminateEntries([children[n - 1]])
  }

  function ConsumedUpTo(children: seq<ElementInstance>, n: nat): nat
    requires n <= |children|
  {
    if n == 0 then 0 else ConsumedUpTo(children, n - 1) + (if children[n - 1].canTerminate then 0 else 1)
  }

  predicate WaitUpTo(children: seq<ElementInstance>, n: nat)
    requires n <= |children|
  {
    n != 0 && (WaitUpTo(children, n - 1) || children[n - 1].canTerminate)
  }

  lemma {:induction false} UpToPrefix(children: seq<ElementInstance>, n: nat)
    requires n <= |children|
    ensures TerminatedUpTo(children, n) == TerminateEntries(children[..n])
    ensures ConsumedUpTo(children, n) == ConsumedTokens(children[..n])
    ensures WaitUpTo(children, n) == WaitForTermination(children[..n])
  {
    if n > 0 {
      UpToPrefix(children, n - 1);
      InterruptNext(children, n - 1);
      InterruptOne(children[n - 1]);
    }
  }

  lemma UpToAll(children: seq<ElementInstance>)
    ensures TerminatedUpTo(children, |children|) == TerminateEntries(children)
    ensures ConsumedUpTo(children, |children|) == ConsumedTokens(children)
    ensures WaitUpTo(children, |children|) == WaitForTermination(children)
  {
    UpToPrefix(children, |children|);
    assert children[..|children|] == children;
  }

  /** Interrupting one more child of a list. */
  lemma InterruptNext(children: seq<ElementInstance>, i: nat)
    requires i < |children|
    ensures var child := children[i];
      && TerminateEntries(children[..i + 1]) == TerminateEntries(children[..i])
           + (if child.canTerminate then [LogEntry(FollowUpEvent, child.key, ElementTerminating, child.value)] else [])
      && ConsumedTokens(children[..i + 1]) == ConsumedTokens(children[..i]) + (if child.canTerminate then 0 else 1)
      && WaitForTermination(children[..i + 1]) == (WaitForTermination(children[..i]) || child.canTerminate)
  {
    assert children[..i + 1] == children[..i] + [children[i]];
    InterruptSplits(children[..i], [children[i]]);
    InterruptOne(children[i]);
  }

  /** `interruptParentScope` reports a wait exactly when some child can terminate,
      which is exactly when it terminated something. */
  lemma {:induction false} WaitIffSomeChildCanTerminate(children: seq<ElementInstance>)
    ensures WaitForTermination(children) <==> exists i :: 0 <= i < |children| && children[i].canTerminate
    ensures WaitForTermination(children) <==> TerminateEntries(children) != []
  {
    if children != [] {
      WaitIffSomeChildCanTerminate(children[1..]);
      if !children[0].canTerminate && WaitForTermination(children[1..]) {
        var i :| 0 <= i < |children[1..]| && children[1..][i].canTerminate;
        assert children[i + 1].canTerminate;
      }
      if exists i :: 0 <= i < |children| && children[i].canTerminate {
        var i :| 0 <= i < |children| && children[i].canTerminate;
        if i > 0 {
          assert children[1..][i - 1].canTerminate;
        }
      }
    }
  }

  /** Every child is dealt with exactly once: terminated or paid for with a token. */
  lemma {:induction false} EachChildTerminatedOrConsumed(children: seq<ElementInstance>)
    ensures |TerminateEntries(children)| + ConsumedTokens(children) == |children|
  {
    if children != [] {
      EachChildTerminatedOrConsumed(children[1..]);
    }
  }

  /** A child that can terminate gets a terminating follow-up under its own key and with its own record. */
  lemma {:induction false} TerminableChildIsTerminated(children: seq<ElementInstance>, i: nat)
    requires i < |children| && children[i].canTerminate
    ensures LogEntry(FollowUpEvent, children[i].key, ElementTerminating, children[i].value) in TerminateEntries(children)
  {
    if i > 0 {
      TerminableChildIsTerminated(children[1..], i - 1);
    }
  }

  /** Only children that can terminate are terminated, each under its own key and with its own record. */
  lemma {:induction false} OnlyTerminableChildrenAreTerminated(children: seq<ElementInstance>)
    ensures forall e :: e in TerminateEntries(children) ==>
      exists i :: 0 <= i < |children| && children[i].canTerminate
                  && e == LogEntry(FollowUpEvent, children[i].key, ElementTerminating, children[i].value)
  {
    if children != [] {
      OnlyTerminableChildrenAreTerminated(children[1..]);
      forall e | e in TerminateEntries(children)
        ensures exists i :: 0 <= i < |children| && children[i].canTerminate
                            && e == LogEntry(FollowUpEvent, children[i].key, ElementTerminating, children[i].value)
      {
        if e in TerminateEntries(children[1..]) {
          var j :| 0 <= j < |children[1..]| && children[1..][j].canTerminate
                   && e == LogEntry(FollowUpEvent, children[1..][j].key, ElementTerminating, children[1..][j].value);
          assert children[j + 1] == children[1..][j];
        } else {
          assert children[0].canTerminate;
        }
      }
    }
  }

  /** The number of log entries under key `key`. */
  function EntriesUnder(entries: seq<LogEntry>, key: Key): nat {
    if entries == [] then 0
    else (if entries[0].key == key then 1 else 0) + EntriesUnder(entries[1..], key)
  }

  /** No two children share a key. */
  predicate DistinctKeys(children: seq<ElementInstance>) {
    forall i, j :: 0 <= i < j < |children| ==> children[i].key != children[j].key
  }

  lemma {:induction false} EntriesUnderAppend(a: seq<LogEntry>, b: seq<LogEntry>, key: Key)
    ensures EntriesUnder(a + b, key) == EntriesUnder(a, key) + EntriesUnder(b, key)
  {
    if a == [] {
      assert a + b == b;
    } else {
      assert (a + b)[1..] == a[1..] + b;
      EntriesUnderAppend(a[1..], b, key);
    }
  }

  /** A key that no child has gets no terminating entry. */
  lemma {:induction false} NoEntryForForeignKey(children: seq<ElementInstance>, key: Key)
    requires forall i :: 0 <= i < |children| ==> children[i].key != key
    ensures EntriesUnder(TerminateEntries(children), key) == 0
  {
    if children != [] {
      var head := if children[0].canTerminate then [LogEntry(FollowUpEvent, children[0].key, ElementTerminating, children[0].value)] else [];
      EntriesUnderAppend(head, TerminateEntries(children[1..]), key);
      NoEntryForForeignKey(children[1..], key);
    }
  }

  /** With distinct child keys, each child that can terminate gets exactly one entry
      under its key, and each child that cannot terminate gets none. */
  lemma {:induction false} TerminatedExactlyOnce(children: seq<ElementInstance>)
    requires DistinctKeys(children)
    ensures forall i :: 0 <= i < |children| ==>
      EntriesUnder(TerminateEntries(children), children[i].key) == if children[i].canTerminate then 1 else 0
  {
    if children != [] {
      var rest := children[1..];
      assert DistinctKeys(rest) by {
        forall i, j | 0 <= i < j < |rest| ensures rest[i].key != rest[j].key {
          assert rest[i] == children[i + 1] && rest[j] == children[j + 1];
        }
      }
      TerminatedExactlyOnce(rest);
      var head := if children[0].canTerminate then [LogEntry(FollowUpEvent, children[0].key, ElementTerminating, children[0].value)] else [];
      forall i | 0 <= i < |children|
        ensures EntriesUnder(TerminateEntries(children), children[i].key) == if children[i].canTerminate then 1 else 0
      {
        var k := children[i].key;
        EntriesUnderAppend(head, TerminateEntries(rest), k);
        if i == 0 {
          forall j | 0 <= j < |rest| ensures rest[j].key != k {
            assert rest[j] == children[j + 1];
          }
          NoEntryForForeignKey(rest, k);
        } else {
          assert rest[i - 1] == children[i];
          assert children[0].key != k;
        }
      }
    }
  }

  // ---------------------------------------------------------------------------
  // Properties of the whole step

  /** Without a triggered event the step does nothing and reports it was not handled. */
  lemma NoTriggerChangesNothing(w: World, key: Key, event: WorkflowInstanceRecord, start: ExecutableStartEvent)
    requires event.flowScopeKey in w.instances && start.eventSubProcess.Some?
    ensures EventSubProcessStep(w, key, event, start, None) == Step(false, w)
  {
  }

  /** The container record is the triggering event relabelled as the event sub-process. */
  lemma ContainerRecordRelabelsEvent(event: WorkflowInstanceRecord, subProcessId: string)
    ensures ContainerRecord(event, subProcessId) == event.(elementId := subProcessId, bpmnElementType := SubProcess)
  {
  }

  /** Token accounting: the scope gains one token and loses one per child that cannot
      terminate (interrupting case only); no other instance changes. */
  lemma StepTokens(w: World, key: Key, event: WorkflowInstanceRecord, start: ExecutableStartEvent, trigger: EventTrigger)
    requires event.flowScopeKey in w.instances && start.eventSubProcess.Some?
    ensures var s := EventSubProcessStep(w, key, event, start, Some(trigger));
      var scopeKey := event.flowScopeKey;
      var children := Children(w, scopeKey);
      && s.handled
      && s.world.instances.Keys == w.instances.Keys
      && (forall k :: k in w.instances && k != scopeKey ==> s.world.instances[k] == w.instances[k])
      && s.world.instances[scopeKey].activeTokens ==
           w.instances[scopeKey].activeTokens + 1
           - (if start.interrupting then |children| - |TerminateEntries(children)| else 0)
      && s.world.instances[scopeKey].active == w.instances[scopeKey].active
      && s.world.childKeys == w.childKeys
  {
    EachChildTerminatedOrConsumed(Children(w, event.flowScopeKey));
  }

  /** The number of entries that activate something. */
  function Activations(entries: seq<LogEntry>): nat {
    if entries == [] then 0
    else (if entries[0].intent == ElementActivating then 1 else 0) + Activations(entries[1..])
  }

  lemma {:induction false} ActivationsAppend(a: seq<LogEntry>, b: seq<LogEntry>)
    ensures Activations(a + b) == Activations(a) + Activations(b)
  {
    if a == [] {
      assert a + b == b;
    } else {
      assert (a + b)[1..] == a[1..] + b;
      ActivationsAppend(a[1..], b);
    }
  }

  lemma {:induction false} TerminateEntriesActivateNothing(children: seq<ElementInstance>)
    ensures Activations(TerminateEntries(children)) == 0
  {
    if children != [] {
      var child := children[0];
      var head := if child.canTerminate then [LogEntry(FollowUpEvent, child.key, ElementTerminating, child.value)] else [];
      ActivationsAppend(head, TerminateEntries(children[1..]));
      TerminateEntriesActivateNothing(children[1..]);
    }
  }

  /** A handled trigger activates the event sub-process exactly once: either the log
      gains one activation and the store is untouched, or (interrupting, with a child
      to wait for) the log gains none and the scope's store gains the deferred
      activation. The log only grows, and nothing is stored for another scope. */
  lemma StepActivatesOnce(w: World, key: Key, event: WorkflowInstanceRecord, start: ExecutableStartEvent, trigger: EventTrigger)
    requires event.flowScopeKey in w.instances && start.eventSubProcess.Some?
    ensures var s := EventSubProcessStep(w, key, event, start, Some(trigger));
      var scopeKey := event.flowScopeKey;
      var deferred := start.interrupting && WaitForTermination(Children(w, scopeKey));
      && |s.world.log| >= |w.log| && s.world.log[..|w.log|] == w.log
      && Activations(s.world.log[|w.log|..]) == (if deferred then 0 else 1)
      && (forall scope :: scope != scopeKey ==> Lookup(s.world.stored, scope) == Lookup(w.stored, scope))
      && Lookup(s.world.stored, scopeKey) ==
           Lookup(w.stored, scopeKey)
           + (if deferred then [StoredRecord(IndexedRecord(w.nextKey, ElementActivating, ContainerRecord(event, start.eventSubProcess.value)), Deferred)] else [])
  {
    var s := EventSubProcessStep(w, key, event, start, Some(trigger));
    var children := Children(w, event.flowScopeKey);
    var container := ContainerRecord(event, start.eventSubProcess.value);
    TerminateEntriesActivateNothing(children);
    var added := if !start.interrupting then [LogEntry(FollowUpEvent, key, ElementActivating, container)]
                 else if WaitForTermination(children) then TerminateEntries(children)
                 else TerminateEntries(children) + [LogEntry(NewEvent, w.nextKey, ElementActivating, container)];
    assert s.world.log == w.log + added;
    assert s.world.log[|w.log|..] == added;
    ActivationsAppend(TerminateEntries(children), [LogEntry(NewEvent, w.nextKey, ElementActivating, container)]);
  }

  /** Interrupting start event with a running child that can terminate (the running
      timer sub-process of the two-sub-process scenario): the child is terminated, the
      log gains only terminations, and the activation is deferred under the fresh key
      that becomes the scope's interrupting event key. */
  lemma InterruptingWaitsForRunningChild(w: World, key: Key, event: WorkflowInstanceRecord, start: ExecutableStartEvent,
                                         trigger: EventTrigger, i: nat)
    requires event.flowScopeKey in w.instances && start.eventSubProcess.Some? && start.interrupting
    requires i < |Children(w, event.flowScopeKey)| && Children(w, event.flowScopeKey)[i].canTerminate
    ensures var s := EventSubProcessStep(w, key, event, start, Some(trigger));
      var scopeKey := event.flowScopeKey;
      var child := Children(w, scopeKey)[i];
      var suffix := s.world.log[|w.log|..];
      && |s.world.log| >= |w.log|
      && LogEntry(FollowUpEvent, child.key, ElementTerminating, child.value) in suffix
      && (forall e :: e in suffix ==> e.intent == ElementTerminating)
      && StoredRecord(IndexedRecord(w.nextKey, ElementActivating, ContainerRecord(event, start.eventSubProcess.value)), Deferred)
           in Lookup(s.world.stored, scopeKey)
      && s.world.instances[scopeKey].interruptingEventKey == w.nextKey
      && s.world.nextKey == w.nextKey + 1
  {
    var children := Children(w, event.flowScopeKey);
    WaitIffSomeChildCanTerminate(children);
    TerminableChildIsTerminated(children, i);
    var s := EventSubProcessStep(w, key, event, start, Some(trigger));
    assert s.world.log[|w.log|..] == TerminateEntries(children);
  }

  /** Interrupting start event and no child that can terminate: every child's token is
      consumed and the activation is written at once as a new event, whose fresh key
      becomes the scope's interrupting event key. */
  lemma InterruptingActivatesAtOnce(w: World, key: Key, event: WorkflowInstanceRecord, start: ExecutableStartEvent, trigger: EventTrigger)
    requires event.flowScopeKey in w.instances && start.eventSubProcess.Some? && start.interrupting
    requires forall c :: c in Children(w, event.flowScopeKey) ==> !c.canTerminate
    ensures var s := EventSubProcessStep(w, key, event, start, Some(trigger));
      var scopeKey := event.flowScopeKey;
      && s.world.log == w.log + [LogEntry(NewEvent, w.nextKey, ElementActivating, ContainerRecord(event, start.eventSubProcess.value))]
      && s.world.instances[scopeKey].interruptingEventKey == w.nextKey
      && s.world.instances[scopeKey].activeTokens == w.instances[scopeKey].activeTokens + 1 - |Children(w, scopeKey)|
      && s.world.stored == w.stored
  {
    var children := Children(w, event.flowScopeKey);
    WaitIffSomeChildCanTerminate(children);
    EachChildTerminatedOrConsumed(children);
    assert TerminateEntries(children) == [];
  }

  /** Non-interrupting start events can fire again and again: two triggers in a row
      are both handled, each writes one activation under its own key, the scope gains
      two tokens and keeps no interrupting event key. */
  lemma NonInterruptingFiresTwice(w: World, key1: Key, key2: Key, event: WorkflowInstanceRecord, start: ExecutableStartEvent,
                                  t1: EventTrigger, t2: EventTrigger)
    requires ShouldHandle(w, event) && start.eventSubProcess.Some? && !start.interrupting
    ensures var s1 := EventSubProcessStep(w, key1, event, start, Some(t1));
      && ShouldHandle(s1.world, event)
      && var s2 := EventSubProcessStep(s1.world, key2, event, start, Some(t2));
      var container := ContainerRecord(event, start.eventSubProcess.value);
      && s1.handled && s2.handled
      && s2.world.log == w.log + [LogEntry(FollowUpEvent, key1, ElementActivating, container),
                                  LogEntry(FollowUpEvent, key2, ElementActivating, container)]
      && s2.world.instances[event.flowScopeKey].activeTokens == w.instances[event.flowScopeKey].activeTokens + 2
      && s2.world.instances[event.flowScopeKey].interruptingEventKey == NoKey
  {
  }

  // ---------------------------------------------------------------------------
  // The handler

  class EventSubProcessEventOccurredHandler {
    var containerRecord: WorkflowInstanceRecord

    constructor ()
      ensures containerRecord == EmptyRecord
    {
      containerRecord := EmptyRecord;
    }

    /** The handler only runs when the flow scope of the start event is active. */
    predicate ShouldHandleState(ctx: StepContext<ExecutableStartEvent>)
      reads ctx, ctx.state
      ensures ShouldHandleState(ctx) ==> ctx.value.flowScopeKey in ctx.state.instances
      ensures ShouldHandleState(ctx) == ShouldHandle(ctx.Snapshot(), ctx.value)
    {
      IsElementActive(ctx.FlowScopeInstance())
    }

    method HandleState(ctx: StepContext<ExecutableStartEvent>, triggeredEvent: Option<EventTrigger>) returns (handled: bool)
      requires ctx.Valid() && ShouldHandleState(ctx) && ctx.element.eventSubProcess.Some?
      modifies this, ctx.output, ctx.state, ctx.keys
      ensures ctx.Valid()
      ensures var step := EventSubProcessStep(old(ctx.Snapshot()), ctx.key, ctx.value, ctx.element, triggeredEvent);
        handled == step.handled && ctx.Snapshot() == step.world
    {
      var event := ctx.value;
      var scopeKey := ctx.value.flowScopeKey;
      if triggeredEvent.None? {
        return false;
      }
      ghost var w := ctx.Snapshot();
      var startEvent := ctx.element;
      PrepareActivateContainer(ctx, event);

      var interruptingKey := NoKey;
      if startEvent.interrupting {
        interruptingKey := HandleInterrupting(ctx, triggeredEvent.value, scopeKey);
      } else {
        ctx.output.AppendFollowUpEvent(ctx.key, ElementActivating, containerRecord);
      }
      ghost var activated := ctx.Snapshot();
      assert scopeKey in activated.instances;

      var scope := GetInstance(ctx.state.instances, scopeKey).value;
      scope := scope.SpawnToken();
      scope := scope.SetInterruptingEventKey(interruptingKey);
      ctx.state.UpdateInstance(scope);
      return true;
    }

    method HandleInterrupting(ctx: StepContext<ExecutableStartEvent>, triggeredEvent: EventTrigger, scopeKey: Key)
      returns (interruptingKey: Key)
      requires ctx.Valid() && scopeKey == ctx.value.flowScopeKey && scopeKey in ctx.state.instances
      modifies ctx.output, ctx.state, ctx.keys
      ensures ctx.Valid()
      ensures var w := old(ctx.Snapshot());
        var children := Children(w, scopeKey);
        (ctx.Snapshot(), interruptingKey) ==
          ActivateAfterInterrupt(Interrupted(w, scopeKey, children), scopeKey, containerRecord, WaitForTermination(children))
    {
      var waitForTermination := InterruptParentScope(ctx);
      if waitForTermination {
        interruptingKey := DeferEvent(ctx, ctx.key, scopeKey, containerRecord, triggeredEvent);
      } else {
        interruptingKey := ctx.output.AppendNewEvent(ElementActivating, containerRecord);
      }
    }

    /** Terminates every child of the scope that can terminate and consumes a token for
        every other child; reports whether anything has to finish terminating first. */
    method InterruptParentScope(ctx: StepContext<ExecutableStartEvent>) returns (waitForTermination: bool)
      requires ctx.Valid() && ctx.value.flowScopeKey in ctx.state.instances
      modifies ctx.output, ctx.state
      ensures ctx.Valid()
      ensures var children := Children(old(ctx.Snapshot()), ctx.value.flowScopeKey);
        && ctx.output.entries == old(ctx.output.entries) + TerminateEntries(children)
        && ctx.state.instances == AddTokens(old(ctx.state.instances), ctx.value.flowScopeKey, -(ConsumedTokens(children) as int))
        && waitForTermination == WaitForTermination(children)
      ensures ctx.state.childKeys == old(ctx.state.childKeys) && ctx.state.stored == old(ctx.state.stored)
    {
      var scopeKey := ctx.value.flowScopeKey;
      var output, state := ctx.output, ctx.state;
      var children := state.GetChildren(scopeKey);
      ghost var w := ctx.Snapshot();
      waitForTermination := false;

      var i := 0;
      while i < |children|
        invariant 0 <= i <= |children|
        invariant output.entries == w.log + TerminatedUpTo(children, i)
        invariant state.instances == AddTokens(w.instances, scopeKey, -(ConsumedUpTo(children, i) as int))
        invariant state.childKeys == w.childKeys && state.stored == w.stored
        invariant state.Valid()
        invariant waitForTermination == WaitUpTo(children, i)
      {
        AddTokensTwice(w.instances, scopeKey, -(ConsumedUpTo(children, i) as int), -1);
        var terminated := InterruptChild(output, state, scopeKey, children[i]);
        waitForTermination := waitForTermination || terminated;
        i := i + 1;
      }
      UpToAll(children);
    }

    /** One pass of the loop of `interruptParentScope`: terminates `child` if it can
        terminate, and consumes a token on the scope otherwise. */
    method InterruptChild(output: StreamWriter, state: ElementInstanceState, scopeKey: Key, child: ElementInstance)
      returns (terminated: bool)
      requires state.Valid()
      modifies output, state
      ensures state.Valid() && terminated == child.canTerminate
      ensures output.entries == old(output.entries) + TerminateEntries([child])
      ensures state.instances == if child.canTerminate || scopeKey !in old(state.instances) then old(state.instances)
                                 else AddTokens(old(state.instances), scopeKey, -1)
      ensures state.childKeys == old(state.childKeys) && state.stored == old(state.stored)
    {
      InterruptOne(child);
      terminated := child.canTerminate;
      if child.canTerminate {
        output.AppendFollowUpEvent(child.key, ElementTerminating, child.value);
      } else {
        state.ConsumeToken(scopeKey);
      }
    }

    /** `deferEvent`: keeps the activation in the scope's store, under a fresh key, until
        the interrupted children have terminated, and returns that key. */
    method DeferEvent(ctx: StepContext<ExecutableStartEvent>, workflowInstanceKey: Key, scopeKey: Key,
                      event: WorkflowInstanceRecord, triggeredEvent: EventTrigger) returns (eventKey: Key)
      requires ctx.Valid()
      modifies ctx.state, ctx.keys
      ensures ctx.Valid()
      ensures eventKey == old(ctx.keys.next)
      ensures ctx.Snapshot() == old(ctx.Snapshot()).(
        stored := StoreAt(old(ctx.state.stored), scopeKey, StoredRecord(IndexedRecord(eventKey, ElementActivating, event), Deferred)),
        nextKey := eventKey + 1)
    {
      eventKey := ctx.keys.NextKey();
      ctx.state.StoreRecord(scopeKey, IndexedRecord(eventKey, ElementActivating, event), Deferred);
    }

    /** Resets the container record and fills it from the triggering event. */
    method PrepareActivateContainer(ctx: StepContext<ExecutableStartEvent>, event: WorkflowInstanceRecord)
      requires ctx.element.eventSubProcess.Some?
      modifies this
      ensures containerRecord == ContainerRecord(event, ctx.element.eventSubProcess.value)
      ensures containerRecord == event.(elementId := ctx.element.eventSubProcess.value, bpmnElementType := SubProcess)
    {
      var subprocessId := ctx.element.eventSubProcess.value;
      containerRecord := EmptyRecord;
      containerRecord := containerRecord.(
        elementId := subprocessId,
        bpmnElementType := SubProcess,
        bpmnProcessId := event.bpmnProcessId,
        workflowKey := event.workflowKey,
        version := event.version,
        workflowInstanceKey := event.workflowInstanceKey,
        flowScopeKey := event.flowScopeKey);
    }
  }
}
