/**
 * The synchronous key/value backend behind the hooks: window.localStorage or
 * window.sessionStorage. Both have the same contract, so one class models
 * either, and a program holds one object of it per backend.
 */
module Storage {
  import opened JsonValues
  import opened Outcomes

  /**
   * What a slot holds: a document written by JSON.stringify, abstracted to the
   * value it parses back to, or text that JSON.parse rejects.
   */
  datatype Entry = Text(value: Json) | Unparseable

  /** Why a hook could not start: the stored text was not JSON. */
  datatype BootError = ParseError

  /**
   * `JSON.parse(storage.getItem(key))`. A missing key reads as null, because
   * getItem returns null and JSON.parse(null) is null.
   */
  function Read(entries: map<string, Entry>, key: string): (r: Result<Json, BootError>)
    ensures key !in entries ==> r == Success(Null)
    ensures r.Failure? <==> key in entries && entries[key] == Unparseable
    ensures r.Success? && key in entries ==> entries[key] == Text(r.value)
  {
    if key !in entries then Success(Null)
    else match entries[key]
      case Text(v) => Success(v)
      case Unparseable => Failure(ParseError)
  }

  class Backend {
    var entries: map<string, Entry>

    constructor (entries: map<string, Entry>)
      ensures this.entries == entries
    {
      this.entries := entries;
    }

    /** getItem followed by JSON.parse; the storage is only read. */
    method GetParsed(key: string) returns (r: Result<Json, BootError>)
      ensures r == Read(entries, key)
    {
      if key !in entries {
        r := Success(Null);
      } else if entries[key].Text? {
        r := Success(entries[key].value);
      } else {
        r := Failure(ParseError);
      }
    }

    /** setItem of JSON.stringify(v): only the slot `key` changes. */
    method SetItem(key: string, v: Json)
      modifies this
      ensures entries == old(entries)[key := Text(v)]
    {
      entries := entries[key := Text(v)];
    }
  }
}
