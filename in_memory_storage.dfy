/** The in-memory game storage (`App\GameStorage\InMemoryStorage`): one optional state slot. */
module GameStorage {
  import opened GameStates

  class InMemoryStorage {
    var state: GameState?

    /** An empty slot. */
    constructor ()
      ensures state == null
    {
      state := null;
    }

    /** The stored state, or null when nothing was stored; the slot is not changed. */
    method Get() returns (s: GameState?)
      ensures s == state
    {
      s := state;
    }

    /** Store `s`, replacing whatever was stored before. */
    method Set(s: GameState)
      modifies this
      ensures state == s
    {
      state := s;
    }
  }

  /**
    A fresh storage gives null; after `set(a)` it gives `a`; after a later `set(b)` it gives `b`
    only. The stored object is the one given, not a copy.
  */
  method LastSetWins(a: GameState, b: GameState) returns (before: GameState?, afterA: GameState?, afterB: GameState?)
    ensures before == null && afterA == a && afterB == b
  {
    var storage := new InMemoryStorage();
    before := storage.Get();
    storage.Set(a);
    afterA := storage.Get();
    storage.Set(b);
    afterB := storage.Get();
  }
}
