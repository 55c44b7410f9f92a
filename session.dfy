/**
 * The life of one mounted useLocalStorage / useSessionStorage hook, as a
 * state machine over the storage slots, the in-memory state and the `start`
 * snapshot that the current render's reset closure holds. A re-render runs
 * the hook body again: it reloads or reseeds the slot and recomputes `start`,
 * while the in-memory state is kept.
 */
module Session {
  import opened JsonValues
  import opened Outcomes
  import opened Storage
  import opened Bootstrap

  datatype Mount = Mount(entries: map<string, Entry>, state: Json, start: Json)

  /** What can happen to a mounted hook: setStateStorage(v), reset(), or a re-render. */
  datatype Op = Put(v: Json) | Restore | Rerender

  /** Storage and memory agree on the slot `key`. */
  ghost predicate Synced(m: Mount, key: string)
  {
    key in m.entries && m.entries[key] == Text(m.state)
  }

  /** No slot other than `key` differs between the two storages. */
  ghost predicate OthersUnchanged(before: map<string, Entry>, after: map<string, Entry>, key: string)
  {
    && (forall k :: k != key && k in before ==> k in after && after[k] == before[k])
    && (forall k :: k != key && k in after ==> k in before)
  }

  /**
   * A reset target that a re-render keeps: a truthy value, which the next
   * render reads back, or the default seed, which it writes again.
   */
  ghost predicate StableStart(m: Mount, key: string, initial: Json)
  {
    Truthy(m.start) || m.start == DefaultSeed(key, initial)
  }

  /**
   * The first render: bootstrap, then the state starts at `start`. Storage and
   * memory agree afterwards, and only `key` may have changed.
   */
  function Mount0(entries: map<string, Entry>, key: string, initial: Json): (r: Result<Mount, BootError>)
    ensures r.Success? <==> Seed(entries, key, initial).Success?
    ensures r.Success? ==> Synced(r.value, key) && r.value.state == r.value.start
    ensures r.Success? ==> StableStart(r.value, key, initial)
    ensures r.Success? ==> OthersUnchanged(entries, r.value.entries, key)
  {
    match Seed(entries, key, initial)
    case Failure(e) => Failure(e)
    case Success(b) => Success(Mount(StorageAfterSeed(entries, key, initial), b.start, b.start))
  }

  /**
   * One operation. setStateStorage and reset write the slot and the state
   * alike and never fail; a re-render keeps the state, may reseed the slot and
   * fails only on a slot that does not parse. No operation touches another slot.
   */
  function Step(m: Mount, key: string, initial: Json, op: Op): (r: Result<Mount, BootError>)
    ensures !op.Rerender? ==> r.Success? && Synced(r.value, key) && r.value.start == m.start
    ensures r.Success? && op.Put? ==> r.value.state == op.v
    ensures r.Success? && op.Restore? ==> r.value.state == m.start
    ensures op.Rerender? ==> (r.Success? <==> Seed(m.entries, key, initial).Success?)
    ensures r.Success? && op.Rerender? ==> r.value.state == m.state && StableStart(r.value, key, initial)
    ensures r.Success? && StableStart(m, key, initial) ==> StableStart(r.value, key, initial)
    ensures r.Success? ==> OthersUnchanged(m.entries, r.value.entries, key)
  {
    match op
    case Put(v) => Success(Mount(m.entries[key := Text(v)], v, m.start))
    case Restore => Success(Mount(m.entries[key := Text(m.start)], m.start, m.start))
    case Rerender =>
      match Seed(m.entries, key, initial)
      case Failure(e) => Failure(e)
      case Success(b) => Success(Mount(StorageAfterSeed(m.entries, key, initial), m.state, b.start))
  }

  /**
   * The operations applied in order; a failed re-render ends the run. A run
   * touches no slot but `key` and keeps the reset target stable.
   */
  function Run(m: Mount, key: string, initial: Json, ops: seq<Op>): (r: Result<Mount, BootError>)
    ensures r.Success? ==> OthersUnchanged(m.entries, r.value.entries, key)
    ensures r.Success? && StableStart(m, key, initial) ==> StableStart(r.value, key, initial)
    decreases |ops|
  {
    if ops == [] then Success(m)
    else match Step(m, key, initial, ops[0])
      case Failure(e) => Failure(e)
      case Success(next) => Run(next, key, initial, ops[1..])
  }

  /** Running `xs + ys` is running `xs`, then `ys` from where `xs` ended. */
  lemma {:induction false} RunAppend(m: Mount, key: string, initial: Json, xs: seq<Op>, ys: seq<Op>)
    ensures Run(m, key, initial, xs + ys) ==
            match Run(m, key, initial, xs)
            case Failure(e) => Failure(e)
            case Success(mid) => Run(mid, key, initial, ys)
    decreases |xs|
  {
    if xs == [] {
      assert xs + ys == ys;
    } else {
      assert (xs + ys)[0] == xs[0];
      assert (xs + ys)[1..] == xs[1..] + ys;
      match Step(m, key, initial, xs[0])
      case Failure(e) =>
      case Success(next) => RunAppend(next, key, initial, xs[1..], ys);
    }
  }

  ghost predicate NoRerender(ops: seq<Op>)
  {
    forall i :: 0 <= i < |ops| ==> !ops[i].Rerender?
  }

  /**
   * Within one render, sets and resets never fail, never move the reset
   * target, touch only `key`, and leave storage and memory agreeing as soon
   * as one of them has run.
   */
  lemma {:induction false} RunWithinRender(m: Mount, key: string, initial: Json, ops: seq<Op>)
    requires NoRerender(ops)
    ensures Run(m, key, initial, ops).Success?
    ensures Run(m, key, initial, ops).value.start == m.start
    ensures OthersUnchanged(m.entries, Run(m, key, initial, ops).value.entries, key)
    ensures ops != [] || Synced(m, key) ==> Synced(Run(m, key, initial, ops).value, key)
    decreases |ops|
  {
    if ops != [] {
      assert !ops[0].Rerender?;
      var next := Step(m, key, initial, ops[0]).value;
      assert NoRerender(ops[1..]) by {
        forall i | 0 <= i < |ops[1..]| ensures !ops[1..][i].Rerender? {
          assert ops[1..][i] == ops[i + 1];
        }
      }
      RunWithinRender(next, key, initial, ops[1..]);
    }
  }

  /** Within one render, reset() puts the snapshot of the mount into storage and memory. */
  lemma ResetWithinRenderRestoresStart(m: Mount, key: string, initial: Json, ops: seq<Op>)
    requires NoRerender(ops)
    ensures Run(m, key, initial, ops + [Restore]).Success?
    ensures Run(m, key, initial, ops + [Restore]).value.state == m.start
    ensures Synced(Run(m, key, initial, ops + [Restore]).value, key)
  {
    RunWithinRender(m, key, initial, ops);
    RunAppend(m, key, initial, ops, [Restore]);
  }

  /**
   * Reset convergence after any run, re-renders included: reset() leaves
   * storage and memory at the current reset target, a second reset() changes
   * nothing, and when the target is stable (as every mount makes it) neither
   * does a re-render followed by another reset().
   */
  lemma ResetConverges(m: Mount, key: string, initial: Json, ops: seq<Op>)
    requires Run(m, key, initial, ops).Success?
    ensures Run(m, key, initial, ops + [Restore]).Success?
    ensures Run(m, key, initial, ops + [Restore]).value.state == Run(m, key, initial, ops).value.start
    ensures Synced(Run(m, key, initial, ops + [Restore]).value, key)
    ensures Run(m, key, initial, ops + [Restore, Restore]) == Run(m, key, initial, ops + [Restore])
    ensures StableStart(m, key, initial) ==>
              Run(m, key, initial, ops + [Restore, Rerender, Restore]) == Run(m, key, initial, ops + [Restore])
  {
    var mid := Run(m, key, initial, ops).value;
    var once := Step(mid, key, initial, Restore).value;
    RunAppend(m, key, initial, ops, [Restore]);
    RunAppend(m, key, initial, ops, [Restore, Restore]);
    RunAppend(m, key, initial, ops, [Restore, Rerender, Restore]);
    assert Run(mid, key, initial, [Restore]) == Success(once);
    assert once.entries[key := Text(once.start)] == once.entries;
    assert Step(once, key, initial, Restore) == Success(once);
    assert Run(mid, key, initial, [Restore, Restore]) == Run(once, key, initial, [Restore]);
    if StableStart(m, key, initial) {
      if Truthy(once.start) {
        SeedAdoptsTruthy(once.entries, key, initial, once.start);
      } else {
        SeedReplacesAbsent(once.entries, key, initial);
      }
      assert Step(once, key, initial, Rerender) == Success(once);
      assert Run(mid, key, initial, [Restore, Rerender, Restore]) == Run(once, key, initial, [Rerender, Restore]);
      assert Run(once, key, initial, [Rerender, Restore]) == Run(once, key, initial, [Restore]);
    }
  }

  /**
   * A re-render while storage and memory agree on a truthy state writes
   * nothing, and the reset target becomes the current state.
   */
  lemma RerenderAdoptsState(m: Mount, key: string, initial: Json)
    requires Synced(m, key) && Truthy(m.state)
    ensures Step(m, key, initial, Rerender) == Success(Mount(m.entries, m.state, m.state))
  {
    SeedAdoptsTruthy(m.entries, key, initial, m.state);
  }

  /**
   * Because each render recomputes `start`, reset() after setStateStorage(v)
   * with a truthy v and a re-render restores v, not the bootstrap snapshot.
   */
  lemma ResetAfterRerenderRestoresLastSet(m: Mount, key: string, initial: Json, v: Json)
    requires Truthy(v)
    ensures Run(m, key, initial, [Put(v), Rerender, Restore]) ==
            Success(Mount(m.entries[key := Text(v)], v, v))
  {
    var put := Mount(m.entries[key := Text(v)], v, m.start);
    RerenderAdoptsState(put, key, initial);
    assert Run(m, key, initial, [Put(v), Rerender, Restore]) == Run(put, key, initial, [Rerender, Restore]);
    assert Run(put, key, initial, [Rerender, Restore]) == Run(Mount(put.entries, v, v), key, initial, [Restore]);
    assert put.entries[key := Text(v)] == put.entries;
  }

  /**
   * A falsy state (null, false, 0, "") does not survive the next render in
   * storage: the render reseeds the slot with the default while memory keeps
   * the falsy value, so the two disagree unless the state is the seed itself.
   */
  lemma RerenderAfterFalsySetDiverges(m: Mount, key: string, initial: Json, v: Json)
    requires !Truthy(v)
    ensures Run(m, key, initial, [Put(v), Rerender]).Success?
    ensures Run(m, key, initial, [Put(v), Rerender]).value.state == v
    ensures var after := Run(m, key, initial, [Put(v), Rerender]).value.entries;
            key in after && after[key] == Text(DefaultSeed(key, initial))
    ensures Synced(Run(m, key, initial, [Put(v), Rerender]).value, key) <==> v == DefaultSeed(key, initial)
  {
    var put := Mount(m.entries[key := Text(v)], v, m.start);
    SeedReplacesAbsent(put.entries, key, initial);
    assert Run(m, key, initial, [Put(v), Rerender]) == Run(put, key, initial, [Rerender]);
  }
}
