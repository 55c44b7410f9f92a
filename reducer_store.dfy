/**
 * useLocalReducer / useSessionReducer, and the persistent data stores built
 * on them: a reducer whose every result is written to the slot before it
 * becomes the state.
 */
module ReducerStores {
  import opened JsonValues
  import opened Outcomes
  import opened Storage
  import opened Bootstrap

  /** The fixed slot of createDataStoreLS and createDataStoreSS. */
  const DataStoreKey: string := "datastore"

  /**
   * The left fold of `reducer` over `actions`, from `s`: the state useReducer
   * reaches. No action leaves `s`; otherwise the last action is applied last,
   * to the fold of the ones before it.
   */
  function Replay<A>(reducer: (Json, A) -> Json, s: Json, actions: seq<A>): (r: Json)
    ensures actions == [] ==> r == s
    ensures actions != [] ==>
              r == reducer(Replay(reducer, s, actions[..|actions| - 1]), actions[|actions| - 1])
    decreases |actions|
  {
    if actions == [] then s
    else
      assert actions[..|actions| - 1] == [] || actions[..|actions| - 1][1..] == actions[1..][..|actions[1..]| - 1];
      Replay(reducer, reducer(s, actions[0]), actions[1..])
  }

  /** One more action folds in at the end; this follows from the contract of Replay. */
  lemma ReplaySnoc<A>(reducer: (Json, A) -> Json, s: Json, actions: seq<A>, a: A)
    ensures Replay(reducer, s, actions + [a]) == reducer(Replay(reducer, s, actions), a)
  {
    assert (actions + [a])[..|actions|] == actions;
  }

  /** A reducer that increments field `count` on the action `{type: "inc"}` and ignores others. */
  function CountReducer(s: Json, action: Json): Json
  {
    if action == Obj(map["type" := Str("inc")]) && s.Obj? && "count" in s.fields && s.fields["count"].Num?
    then Obj(s.fields["count" := Num(s.fields["count"].n + 1)])
    else s
  }

  /**
   * Two increments from `{count: 0}` reach `{count: 2}`, and a later mount of
   * the "datastore" slot holding that value starts from it without reseeding.
   */
  lemma CounterReopens(entries: map<string, Entry>)
    ensures var inc := Obj(map["type" := Str("inc")]);
            var zero := Obj(map["count" := Num(0)]);
            var two := Obj(map["count" := Num(2)]);
            && Replay(CountReducer, zero, [inc, inc]) == two
            && Seed(entries[DataStoreKey := Text(two)], DataStoreKey, zero) == Success(Boot(two, false))
  {
    var inc := Obj(map["type" := Str("inc")]);
    var zero := Obj(map["count" := Num(0)]);
    var one := Obj(map["count" := Num(1)]);
    var two := Obj(map["count" := Num(2)]);
    assert CountReducer(zero, inc) == one by {
      assert zero.fields["count" := Num(1)] == one.fields;
    }
    assert CountReducer(one, inc) == two by {
      assert one.fields["count" := Num(2)] == two.fields;
    }
    assert Replay(CountReducer, zero, [inc, inc]) == Replay(CountReducer, one, [inc]);
    assert Replay(CountReducer, one, [inc]) == Replay(CountReducer, two, []);
    SeedAdoptsTruthy(entries[DataStoreKey := Text(two)], DataStoreKey, zero, two);
  }

  class ReducerStore<A> {
    const backend: Backend
    const key: string
    const initial: Json
    const reducer: (Json, A) -> Json
    /** The snapshot useReducer was started from. */
    const start: Json
    var state: Json
    /** The actions dispatched so far. */
    ghost var history: seq<A>

    ghost predicate Synced()
      reads this, backend
    {
      key in backend.entries && backend.entries[key] == Text(state)
    }

    /** The state is the fold of the reducer over every dispatched action. */
    ghost predicate Replays()
      reads this
    {
      state == Replay(reducer, start, history)
    }

    constructor (backend: Backend, key: string, initial: Json, reducer: (Json, A) -> Json, start: Json)
      ensures this.backend == backend && this.key == key && this.initial == initial
      ensures this.reducer == reducer && this.start == start
      ensures state == start && history == [] && Replays()
    {
      this.backend := backend;
      this.key := key;
      this.initial := initial;
      this.reducer := reducer;
      this.start := start;
      state := start;
      history := [];
    }

    /** dispatch(action), running midReducer: reduce, write the slot, then commit. */
    method Dispatch(action: A)
      requires Replays()
      modifies backend, this`state, this`history
      ensures state == reducer(old(state), action)
      ensures backend.entries == old(backend.entries)[key := Text(state)]
      ensures history == old(history) + [action]
      ensures Replays() && Synced()
    {
      var next := reducer(state, action);
      backend.SetItem(key, next);
      state := next;
      history := history + [action];
      ReplaySnoc(reducer, start, old(history), action);
    }

    /**
     * A later render: the hook body runs its bootstrap prelude again, which
     * may reseed the slot; useReducer keeps the state.
     */
    method Render() returns (r: Outcome<BootError>)
      modifies backend
      ensures backend.entries == StorageAfterSeed(old(backend.entries), key, initial)
      ensures r == Pass <==> Seed(old(backend.entries), key, initial).Success?
      ensures old(Synced()) && Truthy(state) ==> backend.entries == old(backend.entries)
      ensures old(Synced()) && !Truthy(state) ==> (Synced() <==> state == DefaultSeed(key, initial))
    {
      ghost var before := backend.entries;
      if key in before && before[key] == Text(state) {
        if Truthy(state) {
          SeedAdoptsTruthy(before, key, initial, state);
        } else {
          SeedReplacesAbsent(before, key, initial);
        }
      }
      var loaded := Load(backend, key, initial);
      r := if loaded.Failure? then Fail(loaded.error) else Pass;
    }
  }

  /**
   * The first render of useLocalReducer(key, initial, reducer) against
   * `backend`; a slot that does not parse fails the hook.
   */
  method UseReducer<A>(backend: Backend, key: string, initial: Json, reducer: (Json, A) -> Json)
    returns (r: Result<ReducerStore<A>, BootError>)
    modifies backend
    ensures backend.entries == StorageAfterSeed(old(backend.entries), key, initial)
    ensures match Seed(old(backend.entries), key, initial)
            case Failure(e) => r == Failure(e)
            case Success(b) =>
              && r.Success? && fresh(r.value)
              && r.value.backend == backend && r.value.key == key
              && r.value.initial == initial && r.value.reducer == reducer
              && r.value.start == b.start && r.value.state == b.start && r.value.history == []
              && r.value.Synced() && r.value.Replays()
  {
    var loaded := Load(backend, key, initial);
    if loaded.Failure? {
      return Failure(loaded.error);
    }
    var store := new ReducerStore(backend, key, initial, reducer, loaded.value);
    return Success(store);
  }

  /** The store behind createDataStoreLS / createDataStoreSS: always the slot "datastore". */
  method OpenDataStore<A>(backend: Backend, initial: Json, reducer: (Json, A) -> Json)
    returns (r: Result<ReducerStore<A>, BootError>)
    modifies backend
    ensures backend.entries == StorageAfterSeed(old(backend.entries), DataStoreKey, initial)
    ensures match Seed(old(backend.entries), DataStoreKey, initial)
            case Failure(e) => r == Failure(e)
            case Success(b) =>
              && r.Success? && fresh(r.value)
              && r.value.backend == backend && r.value.key == "datastore"
              && r.value.initial == initial && r.value.reducer == reducer
              && r.value.start == b.start && r.value.state == b.start && r.value.history == []
              && r.value.Synced() && r.value.Replays()
  {
    r := UseReducer(backend, DataStoreKey, initial, reducer);
  }
}
