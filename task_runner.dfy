/**
 * createTaskRunner and its persistent variants createTaskRunnerLS / SS: a
 * registry of named handlers, each called with the current state, the state
 * setter and a payload. A handler is modelled by the arguments it passes to
 * the setter, in the order it passes them.
 */
module TaskRunners {
  import opened JsonValues
  import opened Outcomes
  import opened Storage
  import opened Session
  import opened ValueStores

  /** The fixed slot of createTaskRunnerLS and createTaskRunnerSS. */
  const TaskStoreKey: string := "taskstore"

  /** A task: from the state it is handed and the payload, the setter calls it makes. */
  type Handler = (Json, Json) -> seq<Json>

  /** `taskList[task]` on a name that is not registered yields undefined, and calling it throws. */
  datatype TaskError = UnknownTask(name: string)

  /**
   * The state after the setter has been called with each of `calls` in turn.
   * The calls overwrite one another: the last one decides the state, and with
   * no call the state stays.
   */
  function Settle(state: Json, calls: seq<Json>): (r: Json)
    ensures calls == [] ==> r == state
    ensures calls != [] ==> r == calls[|calls| - 1]
    decreases |calls|
  {
    if calls == [] then state else Settle(calls[0], calls[1..])
  }

  /** The setter calls of a handler as operations on a persistent value store. */
  function Puts(calls: seq<Json>): (ops: seq<Op>)
    ensures |ops| == |calls|
    ensures forall i :: 0 <= i < |calls| ==> ops[i] == Put(calls[i])
  {
    seq(|calls|, i requires 0 <= i < |calls| => Put(calls[i]))
  }

  /**
   * Running a handler's setter calls against a persistent store keeps the
   * reset target, touches only the store's slot, ends with storage and memory
   * agreeing, and leaves the state at the last call.
   */
  lemma RunPuts(m: Mount, key: string, initial: Json, calls: seq<Json>)
    ensures Run(m, key, initial, Puts(calls)).Success?
    ensures Run(m, key, initial, Puts(calls)).value.state == Settle(m.state, calls)
    ensures Run(m, key, initial, Puts(calls)).value.start == m.start
    ensures calls != [] || Synced(m, key) ==> Synced(Run(m, key, initial, Puts(calls)).value, key)
    ensures OthersUnchanged(m.entries, Run(m, key, initial, Puts(calls)).value.entries, key)
  {
    RunWithinRender(m, key, initial, Puts(calls));
    var r := Run(m, key, initial, Puts(calls)).value;
    if calls != [] {
      var n := |calls| - 1;
      assert Puts(calls) == Puts(calls[..n]) + [Put(calls[n])];
      RunWithinRender(m, key, initial, Puts(calls[..n]));
      RunAppend(m, key, initial, Puts(calls[..n]), [Put(calls[n])]);
    }
  }

  /** createTaskRunner: the state lives in memory only. */
  class TaskRunner {
    const tasks: map<string, Handler>
    var state: Json

    constructor (initial: Json, tasks: map<string, Handler>)
      ensures this.tasks == tasks && state == initial
    {
      this.tasks := tasks;
      state := initial;
    }

    /** runTask(task, payload): `taskList[task](taskStore, setState, payload)`. */
    method RunTask(task: string, payload: Json) returns (r: Outcome<TaskError>)
      modifies this`state
      ensures task !in tasks ==> r == Fail(UnknownTask(task)) && state == old(state)
      ensures task in tasks ==> r == Pass && state == Settle(old(state), tasks[task](old(state), payload))
    {
      if task !in tasks {
        return Fail(UnknownTask(task));
      }
      var calls := tasks[task](state, payload);
      var i := 0;
      while i < |calls|
        invariant 0 <= i <= |calls|
        invariant state == Settle(old(state), calls[..i])
      {
        assert calls[..i + 1] == calls[..i] + [calls[i]];
        state := calls[i];
        i := i + 1;
      }
      assert calls[..i] == calls;
      return Pass;
    }
  }

  /** createTaskRunnerLS / SS: the state is a useLocalStorage / useSessionStorage hook on "taskstore". */
  class PersistentTaskRunner {
    const store: ValueStore
    const tasks: map<string, Handler>

    constructor (store: ValueStore, tasks: map<string, Handler>)
      ensures this.store == store && this.tasks == tasks
    {
      this.store := store;
      this.tasks := tasks;
    }

    /** runTask(task, payload), the handler being given setStateStorage as its setter. */
    method RunTask(task: string, payload: Json) returns (r: Outcome<TaskError>)
      modifies store.backend, store`state
      ensures task !in tasks ==> r == Fail(UnknownTask(task)) && store.Snapshot() == old(store.Snapshot())
      ensures task in tasks ==>
                && r == Pass
                && Run(old(store.Snapshot()), store.key, store.initial,
                       Puts(tasks[task](old(store.state), payload))) == Success(store.Snapshot())
      ensures task in tasks ==> store.state == Settle(old(store.state), tasks[task](old(store.state), payload))
      ensures task in tasks && tasks[task](old(store.state), payload) != [] ==> Synced(store.Snapshot(), store.key)
    {
      if task !in tasks {
        return Fail(UnknownTask(task));
      }
      var calls := tasks[task](store.state, payload);
      ghost var m0 := store.Snapshot();
      var i := 0;
      while i < |calls|
        invariant 0 <= i <= |calls|
        invariant Run(m0, store.key, store.initial, Puts(calls[..i])) == Success(store.Snapshot())
      {
        assert Puts(calls[..i + 1]) == Puts(calls[..i]) + [Put(calls[i])];
        RunAppend(m0, store.key, store.initial, Puts(calls[..i]), [Put(calls[i])]);
        store.SetState(calls[i]);
        i := i + 1;
      }
      assert calls[..i] == calls;
      RunPuts(m0, store.key, store.initial, calls);
      return Pass;
    }

    /** resetTaskStore: the hook's reset(). */
    method ResetTaskStore()
      modifies store.backend, store`state
      ensures Step(old(store.Snapshot()), store.key, store.initial, Restore) == Success(store.Snapshot())
    {
      store.Reset();
    }
  }

  /** The first render of createTaskRunnerLS / SS's TaskStore against `backend`. */
  method OpenTaskRunner(backend: Backend, initial: Json, tasks: map<string, Handler>)
    returns (r: Result<PersistentTaskRunner, BootError>)
    modifies backend
    ensures match Mount0(old(backend.entries), TaskStoreKey, initial)
            case Failure(e) => r == Failure(e) && backend.entries == old(backend.entries)
            case Success(m) =>
              && r.Success? && fresh(r.value) && fresh(r.value.store)
              && r.value.tasks == tasks && r.value.store.backend == backend
              && r.value.store.key == "taskstore" && r.value.store.initial == initial
              && r.value.store.Snapshot() == m
  {
    var hook := UseStorage(backend, TaskStoreKey, initial);
    if hook.Failure? {
      return Failure(hook.error);
    }
    var runner := new PersistentTaskRunner(hook.value, tasks);
    return Success(runner);
  }
}
