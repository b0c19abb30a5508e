# Zeebe BPMN step handlers: event sub-process trigger and container activation

This project models two step handlers of the Zeebe workflow engine and proves
properties of them in Dafny.

- **Event sub-process trigger** (`EventSubProcessEventOccurredHandler`). A start event of an
  event sub-process has occurred. The handler builds the record of the event sub-process
  (the container record). For an interrupting start event it first interrupts the flow
  scope: every child that can terminate gets an ELEMENT_TERMINATING follow-up event, and
  every other child costs the scope one token. The activation is then deferred into the
  scope's store under a fresh key if something is still terminating, and written at once
  as a new ELEMENT_ACTIVATING event otherwise. A non-interrupting start event writes the
  activation as a follow-up event under its own key. Either way the scope gains one token
  and records the interrupting event key (-1 when not interrupting).
- **Container activation** (`ContainerElementActivatedHandler`). A process or sub-process
  has become active. If its first start event is a none start event or starts an event
  sub-process, that start event is activated inside the container. Otherwise the start
  record that was deferred for the container is published and removed from the store.
  Either way the container gains one token.

## Structure

- `records.dfy` (module `Records`): keys, intents, element types, the workflow-instance
  record, log entries, stored records and the deployed start events and containers.
- `element_instances.dfy` (module `ElementInstances`): element instances with their token
  counts, the per-scope list of children and store of records, as pure functions and as the
  class `ElementInstanceState` the handlers change in place.
- `streams.dfy` (module `Streams`): the key generator and the append-only output log.
- `steps.dfy` (module `Steps`): the step context and `World`, a value snapshot of everything
  a step can change.
- `event_subprocess.dfy` (module `EventSubProcess`): the first handler. `EventSubProcessStep`
  states the whole step as a function of the world before it. The class
  `EventSubProcessEventOccurredHandler` is proved to compute exactly that.
- `container_activation.dfy` (module `ContainerActivation`): the second handler. The step
  function is `ContainerActivated`, and the class `ContainerElementActivatedHandler` is
  proved against it.

Exceptions of the source are `Failure` results. The class methods change the state
in place. Their contracts tie the new state to the step functions, and lemmas prove the
properties of those functions.

## Model

| member | source | states |
|---|---|---|
| EventSubProcess.EventSubProcessEventOccurredHandler.HandleState | engine/src/main/java/io/zeebe/engine/processor/workflow/handlers/eventsubproc/EventSubProcessEventOccurredHandler.java:30-60 | the result and the new state of the store, the log and the key generator are exactly those of `EventSubProcessStep` applied to the state before the call |
| EventSubProcess.EventSubProcessEventOccurredHandler.ShouldHandleState | engine/src/main/java/io/zeebe/engine/processor/workflow/handlers/eventsubproc/EventSubProcessEventOccurredHandler.java:62-65 | the handler runs only when the flow scope of the start event is an active element instance, which then exists; this is the guard `ShouldHandle` of the step function, read on the current state |
| EventSubProcess.EventSubProcessEventOccurredHandler.HandleInterrupting | engine/src/main/java/io/zeebe/engine/processor/workflow/handlers/eventsubproc/EventSubProcessEventOccurredHandler.java:67-78 | interrupts the scope's children, then defers the activation when something has to terminate first and writes it as a new event otherwise; returns the key of the deferred or written activation |
| EventSubProcess.EventSubProcessEventOccurredHandler.InterruptParentScope | engine/src/main/java/io/zeebe/engine/processor/workflow/handlers/eventsubproc/EventSubProcessEventOccurredHandler.java:80-98 | the log gains the terminating entries of the terminable children in order, the scope loses one token per other child, the child lists and the store are untouched, and the result is whether some child can terminate |
| EventSubProcess.EventSubProcessEventOccurredHandler.InterruptChild | engine/src/main/java/io/zeebe/engine/processor/workflow/handlers/eventsubproc/EventSubProcessEventOccurredHandler.java:85-95 | one child: a terminable child gets its terminating follow-up and the tokens stay; otherwise the scope loses one token and the log stays |
| EventSubProcess.EventSubProcessEventOccurredHandler.DeferEvent | engine/src/main/java/io/zeebe/engine/processor/workflow/handlers/eventsubproc/EventSubProcessEventOccurredHandler.java:72 | stores an ELEMENT_ACTIVATING record of the container, with purpose DEFERRED, in the scope's store under a fresh key, and returns that key |
| EventSubProcess.EventSubProcessEventOccurredHandler.PrepareActivateContainer | engine/src/main/java/io/zeebe/engine/processor/workflow/handlers/eventsubproc/EventSubProcessEventOccurredHandler.java:100-112 | the container record is the triggering event with the element id of the event sub-process and type SUB_PROCESS; process id, workflow key, version, instance key and flow scope key are copied |
| EventSubProcess.ContainerRecordRelabelsEvent | engine/src/main/java/io/zeebe/engine/processor/workflow/handlers/eventsubproc/EventSubProcessEventOccurredHandler.java:100-112 | the container record differs from the triggering event only in element id and element type |
| EventSubProcess.NoTriggerChangesNothing | engine/src/main/java/io/zeebe/engine/processor/workflow/handlers/eventsubproc/EventSubProcessEventOccurredHandler.java:35-39 | without a triggered event the step reports not handled and changes nothing: no log entry, no token |
| EventSubProcess.WaitIffSomeChildCanTerminate | engine/src/main/java/io/zeebe/engine/processor/workflow/handlers/eventsubproc/EventSubProcessEventOccurredHandler.java:83-97 | `interruptParentScope` answers true if and only if some child can terminate, and if and only if it wrote a terminating entry |
| EventSubProcess.EachChildTerminatedOrConsumed | engine/src/main/java/io/zeebe/engine/processor/workflow/handlers/eventsubproc/EventSubProcessEventOccurredHandler.java:85-95 | every child is dealt with once: terminating entries plus consumed tokens equal the number of children |
| EventSubProcess.TerminableChildIsTerminated | engine/src/main/java/io/zeebe/engine/processor/workflow/handlers/eventsubproc/EventSubProcessEventOccurredHandler.java:86-91 | a child that can terminate gets an ELEMENT_TERMINATING follow-up under its own key with its own record |
| EventSubProcess.OnlyTerminableChildrenAreTerminated | engine/src/main/java/io/zeebe/engine/processor/workflow/handlers/eventsubproc/EventSubProcessEventOccurredHandler.java:85-95 | every terminating entry belongs to a child that can terminate, under that child's key and with its record |
| EventSubProcess.TerminatedExactlyOnce | engine/src/main/java/io/zeebe/engine/processor/workflow/handlers/eventsubproc/EventSubProcessEventOccurredHandler.java:85-95 | with distinct child keys, a terminable child gets exactly one entry under its key and any other child none |
| EventSubProcess.NoEntryForForeignKey | engine/src/main/java/io/zeebe/engine/processor/workflow/handlers/eventsubproc/EventSubProcessEventOccurredHandler.java:85-95 | no terminating entry is written under a key that no child has |
| EventSubProcess.InterruptSplits | engine/src/main/java/io/zeebe/engine/processor/workflow/handlers/eventsubproc/EventSubProcessEventOccurredHandler.java:85-95 | interrupting a list of children piece by piece gives the same entries, consumed tokens and answer as interrupting it at once |
| EventSubProcess.StepTokens | engine/src/main/java/io/zeebe/engine/processor/workflow/handlers/eventsubproc/EventSubProcessEventOccurredHandler.java:54-57 | a handled trigger gives the scope one token, minus one per child that cannot terminate when interrupting; no other instance changes and the scope stays active |
| EventSubProcess.StepActivatesOnce | engine/src/main/java/io/zeebe/engine/processor/workflow/handlers/eventsubproc/EventSubProcessEventOccurredHandler.java:44-77 | a handled trigger activates the event sub-process exactly once: one ELEMENT_ACTIVATING entry is appended, or none and the deferred activation is stored in the scope; the log only grows and no other scope's store changes |
| EventSubProcess.InterruptingActivatesAtOnce | engine/src/main/java/io/zeebe/engine/processor/workflow/handlers/eventsubproc/EventSubProcessEventOccurredHandler.java:69-77 | interrupting with no terminable child: all child tokens are consumed, one new ELEMENT_ACTIVATING event is written under a fresh key, and that key becomes the scope's interrupting event key |
| EventSubProcess.InterruptingWaitsForRunningChild | engine/src/test/java/io/zeebe/engine/processor/workflow/subprocess/MultipleEventSubprocessTest.java:89-98 | interrupting a scope with a running terminable child terminates it, writes only terminating entries, and defers the activation under the fresh key that becomes the scope's interrupting event key |
| EventSubProcess.NonInterruptingFiresTwice | engine/src/test/java/io/zeebe/engine/processor/workflow/subprocess/MultipleEventSubprocessTest.java:138-147 | a non-interrupting start event is handled twice in a row; each trigger writes one follow-up activation under its own key, the scope gains two tokens and keeps interrupting key -1 |
| ElementInstances.GetInstance | engine/src/main/java/io/zeebe/engine/processor/workflow/handlers/eventsubproc/EventSubProcessEventOccurredHandler.java:54 | the lookup finds an instance exactly when one is filed under the key, and that instance carries the key |
| ElementInstances.DeferredRecordsOf | engine/src/main/java/io/zeebe/engine/processor/workflow/handlers/container/ContainerElementActivatedHandler.java:81-82 | a record is among the deferred records of a scope exactly when it is stored there with purpose DEFERRED |
| ElementInstances.RemoveRecord | engine/src/main/java/io/zeebe/engine/processor/workflow/handlers/container/ContainerElementActivatedHandler.java:93-95 | removal keeps exactly the stored records that do not have the given key and purpose |
| ElementInstances.RemoveUndoesStore | engine/src/main/java/io/zeebe/engine/processor/workflow/handlers/container/ContainerElementActivatedHandler.java:93-95 | removing a record just stored, whose key and purpose no other record had, gives back the records as they were |
| ElementInstances.RemoveAtUndoesStoreAt | engine/src/main/java/io/zeebe/engine/processor/workflow/handlers/container/ContainerElementActivatedHandler.java:93-95 | the same round trip for the store of every scope |
| ElementInstances.RemoveOnlyDeferred | engine/src/main/java/io/zeebe/engine/processor/workflow/handlers/container/ContainerElementActivatedHandler.java:89-95 | removing the single deferred record of a scope leaves no deferred record, and every other record stays |
| ElementInstances.ElementInstanceState.SpawnToken | engine/src/main/java/io/zeebe/engine/processor/workflow/handlers/container/ContainerElementActivatedHandler.java:54-57 | the instance under the key gains one token; nothing else changes |
| ElementInstances.ElementInstanceState.ConsumeToken | engine/src/main/java/io/zeebe/engine/processor/workflow/handlers/eventsubproc/EventSubProcessEventOccurredHandler.java:93 | the instance under the key loses one token; nothing else changes |
| ElementInstances.ElementInstanceState.UpdateInstance | engine/src/main/java/io/zeebe/engine/processor/workflow/handlers/eventsubproc/EventSubProcessEventOccurredHandler.java:57 | the instance is written back under its key; nothing else changes |
| ElementInstances.ElementInstanceState.StoreRecord | engine/src/main/java/io/zeebe/engine/processor/workflow/handlers/eventsubproc/EventSubProcessEventOccurredHandler.java:72 | the record is added at the end of the scope's stored records; nothing else changes |
| ElementInstances.ElementInstanceState.RemoveStoredRecord | engine/src/main/java/io/zeebe/engine/processor/workflow/handlers/container/ContainerElementActivatedHandler.java:93-95 | the scope's records with the given key and purpose are removed; nothing else changes |
| Streams.StreamWriter.AppendFollowUpEvent | engine/src/main/java/io/zeebe/engine/processor/workflow/handlers/eventsubproc/EventSubProcessEventOccurredHandler.java:48-51 | the log gains one follow-up entry under the given key |
| Streams.StreamWriter.AppendNewEvent | engine/src/main/java/io/zeebe/engine/processor/workflow/handlers/eventsubproc/EventSubProcessEventOccurredHandler.java:74-76 | the log gains one new entry under a fresh key, which is returned |
| ContainerActivation.ContainerElementActivatedHandler.HandleState | engine/src/main/java/io/zeebe/engine/processor/workflow/handlers/container/ContainerElementActivatedHandler.java:36-59 | the result, the record being processed and the new state are exactly those of `ContainerActivated` applied to the state before the call; a failure changes nothing |
| ContainerActivation.ContainerElementActivatedHandler.PublishDeferredRecord | engine/src/main/java/io/zeebe/engine/processor/workflow/handlers/container/ContainerElementActivatedHandler.java:61-67 | appends the first deferred record as a follow-up event with its stored key, intent and record and removes it from the store; reports the missing record otherwise, changing nothing |
| ContainerActivation.ContainerElementActivatedHandler.ActivateNoneStartEvent | engine/src/main/java/io/zeebe/engine/processor/workflow/handlers/container/ContainerElementActivatedHandler.java:69-77 | the record being processed gets the start event's id and type and the container as flow scope, and is appended as a new ELEMENT_ACTIVATING event under a fresh key |
| ContainerActivation.ContainerElementActivatedHandler.GetDeferredRecord | engine/src/main/java/io/zeebe/engine/processor/workflow/handlers/container/ContainerElementActivatedHandler.java:79-97 | returns the first deferred record of the container and removes it from the store, or fails when there is none, changing nothing |
| ContainerActivation.FailsExactly | engine/src/main/java/io/zeebe/engine/processor/workflow/handlers/container/ContainerElementActivatedHandler.java:36-59 | the step fails exactly when the inherited step succeeded and there is no start event, or the first one is not activated inside the container and no deferred record exists; a handled step is one whose inherited step succeeded |
| ContainerActivation.NoDeferredRecordIffNoneStored | engine/src/main/java/io/zeebe/engine/processor/workflow/handlers/container/ContainerElementActivatedHandler.java:81-87 | the deferred list is empty exactly when no stored record of the container has purpose DEFERRED |
| ContainerActivation.NotInheritedChangesNothing | engine/src/main/java/io/zeebe/engine/processor/workflow/handlers/container/ContainerElementActivatedHandler.java:38-40 | when the inherited step fails, the result is not handled and nothing changes |
| ContainerActivation.SpawnsOneToken | engine/src/main/java/io/zeebe/engine/processor/workflow/handlers/container/ContainerElementActivatedHandler.java:54-58 | a handled step gives the container exactly one more token and leaves every other instance as it was |
| ContainerActivation.FirstStartEventDecides | engine/src/main/java/io/zeebe/engine/processor/workflow/handlers/container/ContainerElementActivatedHandler.java:43-52 | two containers with the same first start event lead to the same step |
| ContainerActivation.ActivatesFirstStartEvent | engine/src/main/java/io/zeebe/engine/processor/workflow/handlers/container/ContainerElementActivatedHandler.java:48-49 | a none start event or an event sub-process start event is activated as one new ELEMENT_ACTIVATING event under a fresh key, with the start event's id and type, the container as flow scope and the other fields kept; the store is untouched |
| ContainerActivation.PublishesStoredRecord | engine/src/main/java/io/zeebe/engine/processor/workflow/handlers/container/ContainerElementActivatedHandler.java:61-67 | otherwise exactly one follow-up entry is appended and it is a record the container had stored as deferred, with its key, intent and record; no fresh key is taken |
| ContainerActivation.PublishingRemovesTheDeferredRecord | engine/src/main/java/io/zeebe/engine/processor/workflow/handlers/container/ContainerElementActivatedHandler.java:89-95 | publishing the single deferred record leaves the container with none; every other record of the container stays and other scopes are untouched |
| ContainerActivation.DeferThenPublish | engine/src/main/java/io/zeebe/engine/processor/workflow/handlers/container/ContainerElementActivatedHandler.java:79-97 | a record deferred for a container that had none is exactly the one published, and the store afterwards is as it was before the record was deferred |

## Left out

- `super.handleState` of the container handler is not part of this model. Its answer is the parameter `inherited`.
- `getTriggeredEvent` is not part of this model. Its answer is the parameter `triggeredEvent`.
- `EventSubProcess.EventSubProcessEventOccurredHandler.DeferEvent`: the inherited `deferEvent` is not part of this model. It is modelled as storing an ELEMENT_ACTIVATING record with purpose DEFERRED under a fresh key in the scope's store. The copy of the trigger's variables and the consumption of the trigger are not modelled.
- `isElementActive` is modelled as an `active` flag on the instance.
- `canTerminate` is modelled as a `canTerminate` flag on the instance.
- `spawnToken` and `consumeToken` are modelled as adding one to, or taking one from, the instance's token count.
- `getChildren` is modelled as the instances filed under the scope's child keys, in order.
- `EventSubProcess.EventSubProcessEventOccurredHandler.HandleState` requires that the handler only runs when `shouldHandleState` holds. If the scope instance were missing, the source would fail with a null dereference.
- `EventSubProcess.EventSubProcessEventOccurredHandler.HandleState` is assumed to run only for start events of an event sub-process (it requires `eventSubProcess` to be present, and so do `EventSubProcessStep` and `PrepareActivateContainer`). The source does not check this: for another start event it would pass a null id to the container record.
- `ContainerActivation.ContainerElementActivatedHandler.HandleState` requires that the container's own element instance exists under the step's key.
- `ContainerActivation.ContainerElementActivatedHandler.HandleState` requires that the store it removes from (`workflowState`) is the context's element-instance store.
- `ContainerActivation.ContainerElementActivatedHandler.HandleState` turns the Java `assert` (at most one deferred record) into a precondition of the branch that reaches it.
- An exception ends the step with a `Failure` and no change. In the source nothing has been changed yet when either exception is thrown.
- Keys are unbounded integers. The 64-bit key range is not modelled.
- Records keep only the seven fields the handlers read or write. Buffers and serialisation are not modelled.
- Logging is left out.
- The Go client's command builder is outside this model.
- The engine-level test scenarios are not modelled as such. Two lemmas restate their expected outcomes at the level of one step.
