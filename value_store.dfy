/**
 * useLocalStorage / useSessionStorage: a mounted hook holding one value that
 * every set writes through to its slot before it changes in memory.
 */
module ValueStores {
  import opened JsonValues
  import opened Outcomes
  import opened Storage
  import opened Bootstrap
  import opened Session

  class ValueStore {
    const backend: Backend
    const key: string
    const initial: Json
    /** The snapshot the current render's reset closure holds. */
    var start: Json
    /** The React state the hook returns. */
    var state: Json

    /** This hook as a point of the state machine in module Session. */
    function Snapshot(): Mount
      reads this, backend
    {
      Mount(backend.entries, state, start)
    }

    constructor (backend: Backend, key: string, initial: Json, start: Json)
      ensures this.backend == backend && this.key == key && this.initial == initial
      ensures this.start == start && state == start
    {
      this.backend := backend;
      this.key := key;
      this.initial := initial;
      this.start := start;
      state := start;
    }

    /** setStateStorage(v): write the slot, then the state. */
    method SetState(v: Json)
      modifies backend, this`state
      ensures Step(old(Snapshot()), key, initial, Put(v)) == Success(Snapshot())
      ensures state == v && Synced(Snapshot(), key) && start == old(start)
    {
      backend.SetItem(key, v);
      state := v;
    }

    /** reset(): setStateStorage(start). */
    method Reset()
      modifies backend, this`state
      ensures Step(old(Snapshot()), key, initial, Restore) == Success(Snapshot())
      ensures state == start && Synced(Snapshot(), key)
    {
      SetState(start);
    }

    /**
     * A later render of the component: the hook body runs again, reloading or
     * reseeding the slot and recomputing `start`; React keeps the state. A slot
     * that no longer parses makes the hook fail.
     */
    method Render() returns (r: Outcome<BootError>)
      modifies backend, this`start
      ensures match Step(old(Snapshot()), key, initial, Rerender)
              case Failure(e) => r == Fail(e) && Snapshot() == old(Snapshot())
              case Success(m) => r == Pass && Snapshot() == m
    {
      var loaded := Load(backend, key, initial);
      if loaded.Failure? {
        return Fail(loaded.error);
      }
      start := loaded.value;
      return Pass;
    }
  }

  /**
   * The first render of useLocalStorage(key, initial) against `backend`
   * (localStorage or sessionStorage). A slot that does not parse fails the
   * hook, standing for the catch that leaves it returning undefined.
   */
  method UseStorage(backend: Backend, key: string, initial: Json) returns (r: Result<ValueStore, BootError>)
    modifies backend
    ensures match Mount0(old(backend.entries), key, initial)
            case Failure(e) => r == Failure(e) && backend.entries == old(backend.entries)
            case Success(m) =>
              && r.Success? && fresh(r.value)
              && r.value.backend == backend && r.value.key == key && r.value.initial == initial
              && r.value.Snapshot() == m
  {
    var loaded := Load(backend, key, initial);
    if loaded.Failure? {
      return Failure(loaded.error);
    }
    var store := new ValueStore(backend, key, initial, loaded.value);
    return Success(store);
  }
}
