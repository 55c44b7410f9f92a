/**
 * Load-or-seed: the prelude every storage hook runs on each render. It reads
 * the slot; a truthy stored value becomes `start` and nothing is written,
 * anything else is replaced by a default seed that is written back.
 */
module Bootstrap {
  import opened JsonValues
  import opened Outcomes
  import opened Storage

  /**
   * The default snapshot: `initial` itself when `typeof initial === 'object'`
   * (records, arrays, null), otherwise the one-field record `{[key]: initial}`.
   */
  function DefaultSeed(key: string, initial: Json): (r: Json)
    ensures IsObjectTyped(r)
    ensures IsObjectTyped(initial) ==> r == initial
    ensures !IsObjectTyped(initial) ==> r.Obj? && r.fields.Keys == {key} && r.fields[key] == initial
  {
    if IsObjectTyped(initial) then initial else Obj(map[key := initial])
  }

  /** The outcome of one bootstrap: the snapshot it starts from and whether it wrote it. */
  datatype Boot = Boot(start: Json, writes: bool)

  /**
   * The bootstrap decision for `key` over the slots `entries`: it fails exactly
   * on a slot that does not parse; it writes nothing only when it adopts a
   * truthy stored value; and it starts from a truthy value or the default seed.
   */
  function Seed(entries: map<string, Entry>, key: string, initial: Json): (r: Result<Boot, BootError>)
    ensures r.Failure? <==> key in entries && entries[key] == Unparseable
    ensures r.Success? && !r.value.writes ==> key in entries && entries[key] == Text(r.value.start) && Truthy(r.value.start)
    ensures r.Success? && r.value.writes ==> r.value.start == DefaultSeed(key, initial)
    ensures r.Success? ==> Truthy(r.value.start) || r.value.start == DefaultSeed(key, initial)
  {
    match Read(entries, key)
    case Failure(e) => Failure(e)
    case Success(stored) =>
      if Truthy(stored) then Success(Boot(stored, false))
      else Success(Boot(DefaultSeed(key, initial), true))
  }

  /** The slots after a bootstrap: a failed read or a truthy stored value writes nothing. */
  function StorageAfterSeed(entries: map<string, Entry>, key: string, initial: Json): (r: map<string, Entry>)
    ensures Seed(entries, key, initial).Failure? ==> r == entries
    ensures Seed(entries, key, initial).Success? ==>
              key in r && r[key] == Text(Seed(entries, key, initial).value.start)
    ensures r.Keys == entries.Keys || r.Keys == entries.Keys + {key}
    ensures forall k :: k != key && k in entries ==> r[k] == entries[k]
  {
    match Seed(entries, key, initial)
    case Failure(_) => entries
    case Success(b) => if b.writes then entries[key := Text(b.start)] else entries
  }

  /** A truthy stored value is adopted as it is, and the storage is not written. */
  lemma SeedAdoptsTruthy(entries: map<string, Entry>, key: string, initial: Json, v: Json)
    requires key in entries && entries[key] == Text(v) && Truthy(v)
    ensures Seed(entries, key, initial) == Success(Boot(v, false))
    ensures StorageAfterSeed(entries, key, initial) == entries
  {
  }

  /**
   * A missing key, or a stored null, false, 0 or "", counts as absent: the
   * default seed becomes `start` and is written under `key`.
   */
  lemma SeedReplacesAbsent(entries: map<string, Entry>, key: string, initial: Json)
    requires key !in entries || (entries[key].Text? && !Truthy(entries[key].value))
    ensures Seed(entries, key, initial) == Success(Boot(DefaultSeed(key, initial), true))
    ensures StorageAfterSeed(entries, key, initial) == entries[key := Text(DefaultSeed(key, initial))]
  {
  }

  /** A slot whose text JSON.parse rejects fails the bootstrap and nothing is written. */
  lemma SeedFailsOnUnparseable(entries: map<string, Entry>, key: string, initial: Json)
    requires key in entries && entries[key] == Unparseable
    ensures Seed(entries, key, initial) == Failure(ParseError)
    ensures StorageAfterSeed(entries, key, initial) == entries
  {
  }

  /** The default seed is falsy exactly when `initial` is null. */
  lemma DefaultSeedFalsyIffNull(key: string, initial: Json)
    ensures !Truthy(DefaultSeed(key, initial)) <==> initial == Null
  {
  }

  /**
   * Bootstrapping twice gives the same snapshot and the same storage. The
   * second bootstrap writes again exactly when the first one seeded null,
   * which only `initial == null` produces.
   */
  lemma SeedIdempotent(entries: map<string, Entry>, key: string, initial: Json)
    requires Seed(entries, key, initial).Success?
    ensures var once := StorageAfterSeed(entries, key, initial);
            var first := Seed(entries, key, initial).value;
            && Seed(once, key, initial).Success?
            && Seed(once, key, initial).value.start == first.start
            && StorageAfterSeed(once, key, initial) == once
            && (Seed(once, key, initial).value.writes <==> !Truthy(first.start))
            && (first.writes && Seed(once, key, initial).value.writes <==> first.writes && initial == Null)
  {
    var first := Seed(entries, key, initial).value;
    var once := StorageAfterSeed(entries, key, initial);
    assert once[key] == Text(first.start);
    if Truthy(first.start) {
      SeedAdoptsTruthy(once, key, initial, first.start);
    } else {
      assert first.start == DefaultSeed(key, initial);
      SeedReplacesAbsent(once, key, initial);
      assert once[key := Text(first.start)] == once;
    }
    DefaultSeedFalsyIffNull(key, initial);
  }

  /**
   * The bootstrap prelude run against a backend: read the slot, seed it when
   * the stored value is falsy, and hand back `start`.
   */
  method Load(backend: Backend, key: string, initial: Json) returns (r: Result<Json, BootError>)
    modifies backend
    ensures backend.entries == StorageAfterSeed(old(backend.entries), key, initial)
    ensures match Seed(old(backend.entries), key, initial)
            case Failure(e) => r == Failure(e)
            case Success(b) => r == Success(b.start)
  {
    var stored := backend.GetParsed(key);
    if stored.Failure? {
      return Failure(stored.error);
    }
    var start;
    if Truthy(stored.value) {
      start := stored.value;
    } else {
      start := DefaultSeed(key, initial);
      backend.SetItem(key, start);
    }
    return Success(start);
  }
}
