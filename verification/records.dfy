/** Values the two BPMN step handlers exchange: keys, intents, workflow-instance
    records, the executable elements they are attached to, entries of the output
    log and records kept in the element-instance store. */
module Records {

  datatype Option<T> = None | Some(value: T)

  datatype Result<T, E> = Success(value: T) | Failure(error: E)

  /** Keys of records and element instances (a Java long). */
  type Key = int

  /** What a key field holds when it names nothing. */
  const NoKey: Key := -1

  /** The lifecycle intents of a workflow-instance record. */
  datatype WorkflowInstanceIntent =
    | SequenceFlowTaken
    | ElementActivating
    | ElementActivated
    | EventOccurred
    | ElementCompleting
    | ElementCompleted
    | ElementTerminating
    | ElementTerminated

  datatype BpmnElementType =
    | Unspecified
    | Process
    | SubProcess
    | StartEvent
    | IntermediateCatchEvent
    | BoundaryEvent
    | EndEvent
    | ServiceTask
    | ReceiveTask
    | ExclusiveGateway
    | ParallelGateway
    | EventBasedGateway
    | SequenceFlow

  /** The fields of a workflow-instance record that the handlers read or write. */
  datatype WorkflowInstanceRecord = WorkflowInstanceRecord(
    bpmnProcessId: string,
    version: int,
    workflowKey: Key,
    workflowInstanceKey: Key,
    elementId: string,
    flowScopeKey: Key,
    bpmnElementType: BpmnElementType)

  /** A record after `reset()`: every field back to its default. */
  const EmptyRecord := WorkflowInstanceRecord("", -1, NoKey, NoKey, "", NoKey, Unspecified)

  /** A follow-up event reuses the key of the record it follows up; a new event gets a fresh key. */
  datatype EventKind = FollowUpEvent | NewEvent

  /** One entry of the output log. */
  datatype LogEntry = LogEntry(
    kind: EventKind,
    key: Key,
    intent: WorkflowInstanceIntent,
    value: WorkflowInstanceRecord)

  /** Why a record is kept in the element-instance store. */
  datatype Purpose = Deferred | Failed

  /** A record kept for later: its key, the intent it is to be written with, and its value. */
  datatype IndexedRecord = IndexedRecord(key: Key, state: WorkflowInstanceIntent, value: WorkflowInstanceRecord)

  datatype StoredRecord = StoredRecord(record: IndexedRecord, purpose: Purpose)

  /** A start event as deployed: its id and element type, whether it interrupts its
      flow scope, whether it is a none start event, and the id of the event
      sub-process it starts, if it starts one. */
  datatype ExecutableStartEvent = ExecutableStartEvent(
    id: string,
    elementType: BpmnElementType,
    interrupting: bool,
    isNone: bool,
    eventSubProcess: Option<string>)

  /** A process or sub-process as deployed, with its start events in declaration order. */
  datatype ExecutableFlowElementContainer = ExecutableFlowElementContainer(
    id: string,
    startEvents: seq<ExecutableStartEvent>)

  /** An event that occurred for a flow scope and waits to be handled. */
  datatype EventTrigger = EventTrigger(elementId: string, eventKey: Key)

  /** The list filed under `k`, or the empty list. */
  function Lookup<K, V>(m: map<K, seq<V>>, k: K): seq<V> {
    if k in m then m[k] else []
  }
}
