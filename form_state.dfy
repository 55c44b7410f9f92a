/**
 * useFormState: a form record in React state, changed one field at a time by
 * handleChange and put back to its initial value by reset.
 */
module FormStates {
  import opened JsonValues

  /** The decimal text of an index, as an array or string spread uses it for a key. */
  function IndexKey(n: nat): (r: string)
    ensures |r| >= 1
    ensures n < 10 <==> |r| == 1
    decreases n
  {
    if n < 10 then ["0123456789"[n]] else IndexKey(n / 10) + ["0123456789"[n % 10]]
  }

  /** Different indices have different keys. */
  lemma {:induction false} IndexKeyInjective(a: nat, b: nat)
    requires IndexKey(a) == IndexKey(b)
    ensures a == b
    decreases a
  {
    var ka, kb := IndexKey(a), IndexKey(b);
    if a >= 10 && b >= 10 {
      assert ka[..|ka| - 1] == IndexKey(a / 10);
      assert kb[..|kb| - 1] == IndexKey(b / 10);
      IndexKeyInjective(a / 10, b / 10);
      assert "0123456789"[a % 10] == ka[|ka| - 1] == kb[|kb| - 1] == "0123456789"[b % 10];
    } else if a < 10 && b < 10 {
      assert "0123456789"[a] == ka[0] == kb[0] == "0123456789"[b];
    }
  }

  /** The key of a position differs from the keys of all earlier positions. */
  lemma IndexKeyFresh(n: nat)
    ensures forall i :: 0 <= i < n ==> IndexKey(i) != IndexKey(n)
  {
    forall i | 0 <= i < n ensures IndexKey(i) != IndexKey(n) {
      if IndexKey(i) == IndexKey(n) {
        IndexKeyInjective(i, n);
      }
    }
  }

  /** The keys "0" up to the decimal text of n - 1. */
  function IndexKeys(n: nat): set<string>
  {
    if n == 0 then {} else IndexKeys(n - 1) + {IndexKey(n - 1)}
  }

  /** The record `{...xs}` for an array `xs`: element i under the key "i". */
  function IndexedFields(xs: seq<Json>): (r: map<string, Json>)
    ensures r.Keys == IndexKeys(|xs|)
    ensures forall i :: 0 <= i < |xs| ==> IndexKey(i) in r && r[IndexKey(i)] == xs[i]
    decreases |xs|
  {
    if xs == [] then map[]
    else
      var n := |xs| - 1;
      var init := IndexedFields(xs[..n]);
      IndexKeyFresh(n);
      init[IndexKey(n) := xs[n]]
  }

  /**
   * The own fields copied by the spread `{...v}`: a record's fields, an
   * array's or a string's positions, and nothing for null, booleans and numbers.
   */
  function Spread(v: Json): (r: map<string, Json>)
    ensures v.Obj? ==> r == v.fields
    ensures v.Null? || v.Bool? || v.Num? ==> r == map[]
    ensures v.Arr? ==> r.Keys == IndexKeys(|v.items|)
    ensures v.Arr? ==> forall i :: 0 <= i < |v.items| ==> IndexKey(i) in r && r[IndexKey(i)] == v.items[i]
    ensures v.Str? ==> r.Keys == IndexKeys(|v.s|)
    ensures v.Str? ==> forall i :: 0 <= i < |v.s| ==> IndexKey(i) in r && r[IndexKey(i)] == Str([v.s[i]])
  {
    match v
    case Obj(f) => f
    case Arr(xs) => IndexedFields(xs)
    case Str(s) => IndexedFields(seq(|s|, i requires 0 <= i < |s| => Str([s[i]])))
    case _ => map[]
  }

  /**
   * `{ ...form, [name]: value }`: the previous record with field `name` set to
   * `value` and every other field kept.
   */
  function Changed(form: Json, name: string, value: Json): (r: Json)
    ensures r.Obj?
    ensures r.fields.Keys == Spread(form).Keys + {name}
    ensures r.fields[name] == value
    ensures forall k :: k in Spread(form) && k != name ==> r.fields[k] == Spread(form)[k]
  {
    Obj(Spread(form)[name := value])
  }

  /** Repeating a change does nothing more. */
  lemma ChangeIdempotent(form: Json, name: string, value: Json)
    ensures Changed(Changed(form, name, value), name, value) == Changed(form, name, value)
  {
  }

  /** A later change of the same field overrides an earlier one. */
  lemma ChangeOverrides(form: Json, name: string, first: Json, second: Json)
    ensures Changed(Changed(form, name, first), name, second) == Changed(form, name, second)
  {
  }

  /** Changes of two different fields do not interfere. */
  lemma ChangesCommute(form: Json, name1: string, value1: Json, name2: string, value2: Json)
    requires name1 != name2
    ensures Changed(Changed(form, name1, value1), name2, value2) ==
            Changed(Changed(form, name2, value2), name1, value1)
  {
  }

  class FormState {
    const initial: Json
    var data: Json

    constructor (initial: Json)
      ensures this.initial == initial && data == initial
    {
      this.initial := initial;
      data := initial;
    }

    /** handleChange(event) for an event whose target has `name` and `value`. */
    method HandleChange(name: string, value: Json)
      modifies this`data
      ensures data == Changed(old(data), name, value)
    {
      data := Changed(data, name, value);
    }

    /** reset(): the form record returns to `initialState` exactly. */
    method Reset()
      modifies this`data
      ensures data == initial
    {
      data := initial;
    }
  }
}
