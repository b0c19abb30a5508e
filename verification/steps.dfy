/** The context a step handler works in, and the value-level view of everything
    a step can change. */
module Steps {
  import opened Records
  import opened ElementInstances
  import opened Streams

  /** Everything a step may change, as one value: the element instances, the children
      of each scope, the stored records, the output log and the next fresh key. */
  datatype World = World(
    instances: map<Key, ElementInstance>,
    childKeys: map<Key, seq<Key>>,
    stored: map<Key, seq<StoredRecord>>,
    log: seq<LogEntry>,
    nextKey: Key)

  /** The children of scope `scopeKey`, as `getChildren` returns them. */
  function Children(w: World, scopeKey: Key): seq<ElementInstance> {
    ChildrenOf(w.instances, Lookup(w.childKeys, scopeKey))
  }

  /** The record being processed (`value`, which handlers may change in place), its
      key, the executable element it belongs to, and the state and writer of the step. */
  class StepContext<E> {
    const key: Key
    var value: WorkflowInstanceRecord
    const element: E
    const output: StreamWriter
    const state: ElementInstanceState
    const keys: KeyGenerator

    ghost predicate Valid()
      reads state
    {
      output.keys == keys && state.Valid()
    }

    constructor (key: Key, value: WorkflowInstanceRecord, element: E,
                 output: StreamWriter, state: ElementInstanceState)
      requires state.Valid()
      ensures Valid()
      ensures this.key == key && this.value == value && this.element == element
      ensures this.output == output && this.state == state && this.keys == output.keys
    {
      this.key := key;
      this.value := value;
      this.element := element;
      this.output := output;
      this.state := state;
      this.keys := output.keys;
    }

    ghost function Snapshot(): World
      reads output, state, keys
    {
      World(state.instances, state.childKeys, state.stored, output.entries, keys.next)
    }

    /** `getFlowScopeInstance`: the instance of the flow scope of the record being processed. */
    function FlowScopeInstance(): Option<ElementInstance>
      reads this, state
    {
      if value.flowScopeKey in state.instances then Some(state.instances[value.flowScopeKey]) else None
    }
  }
}
