/** The element-instance state: element instances with their token counts, the
    children of every flow scope, and the records stored per scope. */
module ElementInstances {
  import opened Records

  /** One element instance: its key, whether it is active (what `isElementActive`
      asks of it), whether it can still be terminated, its active tokens, the key of
      the interrupting event that occurred in it, and its record. */
  datatype ElementInstance = ElementInstance(
    key: Key,
    active: bool,
    canTerminate: bool,
    activeTokens: int,
    interruptingEventKey: Key,
    value: WorkflowInstanceRecord)
  {
    function SpawnToken(): ElementInstance {
      this.(activeTokens := activeTokens + 1)
    }

    function SetInterruptingEventKey(key: Key): ElementInstance {
      this.(interruptingEventKey := key)
    }
  }

  /** Every instance is filed under its own key. */
  ghost predicate KeysConsistent(instances: map<Key, ElementInstance>) {
    forall k :: k in instances ==> instances[k].key == k
  }

  /** `isElementActive`: there is an instance and it is active. */
  predicate IsElementActive(instance: Option<ElementInstance>) {
    instance.Some? && instance.value.active
  }

  function GetInstance(instances: map<Key, ElementInstance>, key: Key): (r: Option<ElementInstance>)
    requires KeysConsistent(instances)
    ensures r.Some? <==> key in instances
    ensures r.Some? ==> r.value.key == key && r.value == instances[key]
  {
    if key in instances then Some(instances[key]) else None
  }

  /** `instances` with `n` tokens added to the instance at `key`. */
  function AddTokens(instances: map<Key, ElementInstance>, key: Key, n: int): (r: map<Key, ElementInstance>)
    requires key in instances
    ensures r.Keys == instances.Keys
  {
    instances[key := instances[key].(activeTokens := instances[key].activeTokens + n)]
  }

  lemma AddTokensTwice(instances: map<Key, ElementInstance>, key: Key, a: int, b: int)
    requires key in instances
    ensures AddTokens(AddTokens(instances, key, a), key, b) == AddTokens(instances, key, a + b)
  {
  }

  /** The instances filed under `keys`, in the order of `keys`; keys without an instance are skipped. */
  function ChildrenOf(instances: map<Key, ElementInstance>, keys: seq<Key>): (r: seq<ElementInstance>)
  {
    if keys == [] then []
    else if keys[0] in instances then [instances[keys[0]]] + ChildrenOf(instances, keys[1..])
    else ChildrenOf(instances, keys[1..])
  }

  /** The records stored with purpose DEFERRED, in the order they were stored. */
  function DeferredRecordsOf(stored: seq<StoredRecord>): (r: seq<IndexedRecord>)
    ensures |r| <= |stored|
    ensures forall x :: x in r <==> StoredRecord(x, Deferred) in stored
  {
    if stored == [] then []
    else if stored[0].purpose == Deferred then [stored[0].record] + DeferredRecordsOf(stored[1..])
    else DeferredRecordsOf(stored[1..])
  }

  /** `stored` without the records that have key `recordKey` and purpose `purpose`. */
  function RemoveRecord(stored: seq<StoredRecord>, recordKey: Key, purpose: Purpose): (r: seq<StoredRecord>)
    ensures |r| <= |stored|
    ensures forall s :: s in r <==> s in stored && !(s.record.key == recordKey && s.purpose == purpose)
  {
    if stored == [] then []
    else if stored[0].record.key == recordKey && stored[0].purpose == purpose then RemoveRecord(stored[1..], recordKey, purpose)
    else [stored[0]] + RemoveRecord(stored[1..], recordKey, purpose)
  }

  /** The store with `s` added at the end of the records of scope `scopeKey`. */
  function StoreAt(stored: map<Key, seq<StoredRecord>>, scopeKey: Key, s: StoredRecord): map<Key, seq<StoredRecord>> {
    stored[scopeKey := Lookup(stored, scopeKey) + [s]]
  }

  /** The store with the records of key `recordKey` and purpose `purpose` removed from scope `scopeKey`. */
  function RemoveAt(stored: map<Key, seq<StoredRecord>>, scopeKey: Key, recordKey: Key, purpose: Purpose): map<Key, seq<StoredRecord>> {
    if scopeKey in stored then stored[scopeKey := RemoveRecord(stored[scopeKey], recordKey, purpose)] else stored
  }

  /** Removing what was just stored gives back the records as they were, provided
      none of them already had that key and purpose. */
  lemma {:induction false} RemoveUndoesStore(stored: seq<StoredRecord>, s: StoredRecord)
    requires forall t :: t in stored ==> !(t.record.key == s.record.key && t.purpose == s.purpose)
    ensures RemoveRecord(stored + [s], s.record.key, s.purpose) == stored
  {
    if stored == [] {
      assert [s][1..] == [];
    } else {
      assert (stored + [s])[1..] == stored[1..] + [s];
      RemoveUndoesStore(stored[1..], s);
      assert [stored[0]] + stored[1..] == stored;
    }
  }

  /** The same, scope by scope, for the whole store. */
  lemma RemoveAtUndoesStoreAt(stored: map<Key, seq<StoredRecord>>, scopeKey: Key, s: StoredRecord)
    requires forall t :: t in Lookup(stored, scopeKey) ==> !(t.record.key == s.record.key && t.purpose == s.purpose)
    ensures forall scope :: Lookup(RemoveAt(StoreAt(stored, scopeKey, s), scopeKey, s.record.key, s.purpose), scope) == Lookup(stored, scope)
  {
    RemoveUndoesStore(Lookup(stored, scopeKey), s);
  }

  /** When a scope has exactly one deferred record, removing it leaves the scope
      with none, and every record that is not that deferred record stays. */
  lemma RemoveOnlyDeferred(stored: seq<StoredRecord>)
    requires |DeferredRecordsOf(stored)| == 1
    ensures var d := DeferredRecordsOf(stored)[0];
      && (forall x :: StoredRecord(x, Deferred) !in RemoveRecord(stored, d.key, Deferred))
      && forall s :: s in stored && s != StoredRecord(d, Deferred) ==> s in RemoveRecord(stored, d.key, Deferred)
  {
    var d := DeferredRecordsOf(stored)[0];
    assert forall x :: x in DeferredRecordsOf(stored) ==> x == d;
  }

  /** The element-instance store the handlers change in place. */
  class ElementInstanceState {
    var instances: map<Key, ElementInstance>
    var childKeys: map<Key, seq<Key>>
    var stored: map<Key, seq<StoredRecord>>

    ghost predicate Valid()
      reads this
    {
      KeysConsistent(instances)
    }

    constructor (instances: map<Key, ElementInstance>, childKeys: map<Key, seq<Key>>, stored: map<Key, seq<StoredRecord>>)
      requires KeysConsistent(instances)
      ensures Valid()
      ensures this.instances == instances && this.childKeys == childKeys && this.stored == stored
    {
      this.instances := instances;
      this.childKeys := childKeys;
      this.stored := stored;
    }

    function GetChildren(scopeKey: Key): seq<ElementInstance>
      reads this
    {
      ChildrenOf(instances, Lookup(childKeys, scopeKey))
    }

    function GetDeferredRecords(scopeKey: Key): seq<IndexedRecord>
      reads this
    {
      DeferredRecordsOf(Lookup(stored, scopeKey))
    }

    method SpawnToken(key: Key)
      requires Valid()
      modifies this
      ensures Valid()
      ensures instances == if key in old(instances) then AddTokens(old(instances), key, 1) else old(instances)
      ensures childKeys == old(childKeys) && stored == old(stored)
    {
      if key in instances {
        instances := AddTokens(instances, key, 1);
      }
    }

    method ConsumeToken(key: Key)
      requires Valid()
      modifies this
      ensures Valid()
      ensures instances == if key in old(instances) then AddTokens(old(instances), key, -1) else old(instances)
      ensures childKeys == old(childKeys) && stored == old(stored)
    {
      if key in instances {
        instances := AddTokens(instances, key, -1);
      }
    }

    method UpdateInstance(instance: ElementInstance)
      requires Valid()
      modifies this
      ensures Valid()
      ensures instances == old(instances)[instance.key := instance]
      ensures childKeys == old(childKeys) && stored == old(stored)
    {
      instances := instances[instance.key := instance];
    }

    method StoreRecord(scopeKey: Key, record: IndexedRecord, purpose: Purpose)
      requires Valid()
      modifies this
      ensures Valid()
      ensures stored == StoreAt(old(stored), scopeKey, StoredRecord(record, purpose))
      ensures instances == old(instances) && childKeys == old(childKeys)
    {
      stored := StoreAt(stored, scopeKey, StoredRecord(record, purpose));
    }

    method RemoveStoredRecord(scopeKey: Key, recordKey: Key, purpose: Purpose)
      requires Valid()
      modifies this
      ensures Valid()
      ensures stored == RemoveAt(old(stored), scopeKey, recordKey, purpose)
      ensures instances == old(instances) && childKeys == old(childKeys)
    {
      stored := RemoveAt(stored, scopeKey, recordKey, purpose);
    }
  }
}
