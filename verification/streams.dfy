/** The output side of a processing step: the key generator and the writer that
    appends events to the log. */
module Streams {
  import opened Records

  /** Hands out fresh keys in increasing order. */
  class KeyGenerator {
    var next: Key

    constructor (first: Key)
      ensures next == first
    {
      next := first;
    }

    method NextKey() returns (key: Key)
      modifies this
      ensures key == old(next) && next == old(next) + 1
    {
      key := next;
      next := next + 1;
    }
  }

  /** The append-only log a step writes to. */
  class StreamWriter {
    var entries: seq<LogEntry>
    const keys: KeyGenerator

    constructor (keys: KeyGenerator)
      ensures entries == [] && this.keys == keys
    {
      entries := [];
      this.keys := keys;
    }

    /** Appends an event under the key of the record it follows up. */
    method AppendFollowUpEvent(key: Key, intent: WorkflowInstanceIntent, value: WorkflowInstanceRecord)
      modifies this
      ensures entries == old(entries) + [LogEntry(FollowUpEvent, key, intent, value)]
    {
      entries := entries + [LogEntry(FollowUpEvent, key, intent, value)];
    }

    /** Appends an event under a fresh key and returns that key. */
    method AppendNewEvent(intent: WorkflowInstanceIntent, value: WorkflowInstanceRecord) returns (key: Key)
      modifies this, keys
      ensures key == old(keys.next) && keys.next == old(keys.next) + 1
      ensures entries == old(entries) + [LogEntry(NewEvent, key, intent, value)]
    {
      key := keys.NextKey();
      entries := entries + [LogEntry(NewEvent, key, intent, value)];
    }
  }
}
