/** The connector's checkpoint: a map kept in memory and stored as a whole. Saving changes the
    memory first; when the store then fails the two differ until the next store that succeeds, and
    a restart goes back to what was stored. */
module Checkpoints {
  class Checkpoint<K(==), V(==)> {
    var memory: map<K, V>
    var stored: map<K, V>

    constructor (stored: map<K, V>)
      ensures this.stored == stored && memory == stored
    {
      this.stored, memory := stored, stored;
    }

    method Save(key: K, value: V) returns (ok: bool)
      modifies this
      ensures memory == old(memory)[key := value]
      ensures stored == if ok then memory else old(stored)
    {
      memory := memory[key := value];
      ok := Persist();
    }

    method Delete(key: K) returns (ok: bool)
      modifies this
      ensures memory == old(memory) - {key}
      ensures stored == if ok then memory else old(stored)
    {
      memory := memory - {key};
      ok := Persist();
    }

    method Persist() returns (ok: bool)
      modifies this`stored
      ensures stored == if ok then memory else old(stored)
    {
      ok := *;
      if ok {
        stored := memory;
      }
    }

    /** The process ends and another starts. */
    method Restart()
      modifies this`memory
      ensures memory == stored
    {
      memory := stored;
    }
  }
}
