// JSON trees and the key-value storage kept in one of them.
module Storage {
  import opened Types

  datatype Json =
    | Null
    | Bool(flag: bool)
    | Num(number: int)
    | Str(text: string)
    | Arr(items: seq<Json>)
    | Obj(fields: map<string, Json>)

  datatype Kvs = KString(value: string) | KNotSet

  // What the constructor loads: the file's tree, or null when it is missing or not JSON.
  function Load(file: Option<Json>): Json {
    match file
    case Some(j) => j
    case None => Null
  }

  predicate HasKey(data: Json, key: string) {
    data.Obj? && key in data.fields
  }

  function EncodeKvs(value: string): Json {
    Obj(map["value" := Str(value)])
  }

  function DecodeKvs(j: Json): Option<Kvs> {
    if j.Obj? && "value" in j.fields && j.fields["value"].Str? then Some(KString(j.fields["value"].text))
    else None
  }

  predicate Storable(data: Json) { data.Null? || data.Obj? }

  // None: operator[] on a tree that is neither null nor an object throws.
  function Put(data: Json, key: string, value: string): Option<Json> {
    match data
    case Null => Some(Obj(map[key := EncodeKvs(value)]))
    case Obj(fields) => Some(Obj(fields[key := EncodeKvs(value)]))
    case _ => None
  }

  // None: a malformed entry throws out of a noexcept function, which ends the process.
  function Get(data: Json, key: string): Option<Kvs> {
    if HasKey(data, key) then DecodeKvs(data.fields[key]) else Some(KNotSet)
  }

  // The tree holds that text under the key, in the form the program writes.
  predicate Holds(data: Json, key: string, text: string) {
    && data.Obj? && key in data.fields && data.fields[key].Obj?
    && "value" in data.fields[key].fields && data.fields[key].fields["value"] == Str(text)
  }

  // A text is read exactly when the tree holds it, not-set exactly when there is no such key; an
  // entry of any other form breaks.
  lemma GetReads(data: Json, key: string)
    ensures forall text :: Get(data, key) == Some(KString(text)) <==> Holds(data, key, text)
    ensures Get(data, key) == Some(KNotSet) <==> !(data.Obj? && key in data.fields)
    ensures Get(data, key) == None <==>
              data.Obj? && key in data.fields && forall text :: !Holds(data, key, text)
  {
    if HasKey(data, key) && DecodeKvs(data.fields[key]).Some? {
      assert Holds(data, key, data.fields[key].fields["value"].text);
    }
  }

  class KeyValueStorage {
    var data: Json
    var file: Option<Json>

    constructor (file: Option<Json>)
      ensures this.file == file && data == Load(file)
      ensures data == if file.Some? then file.value else Null
    {
      this.file := file;
      if file.Some? {
        data := file.value;
      } else {
        data := Null;
      }
    }

    method SetValue(key: string, value: string) returns (ok: bool)
      modifies this`data
      ensures ok <==> Put(old(data), key, value).Some?
      ensures data == if ok then Put(old(data), key, value).value else old(data)
    {
      match data
      case Null =>
        data := Obj(map[key := EncodeKvs(value)]);
        return true;
      case Obj(fields) =>
        data := Obj(fields[key := EncodeKvs(value)]);
        return true;
      case _ =>
        return false;
    }

    method GetValue(key: string) returns (r: Option<Kvs>)
      ensures r == Get(data, key)
      ensures r == Some(KNotSet) <==> !HasKey(data, key)
    {
      if HasKey(data, key) {
        return DecodeKvs(data.fields[key]);
      }
      return Some(KNotSet);
    }

    method SyncToStorage()
      modifies this`file
      ensures file == Some(data)
    {
      file := Some(data);
    }
  }

  // After a save, a sync and a reload the value is there, and no other key has changed: this holds
  // exactly when the tree was null or an object to begin with.
  lemma SavedValueSurvivesReload(data: Json, key: string, value: string)
    ensures Put(data, key, value).Some? <==> Storable(data)
    ensures var stored := Put(data, key, value);
            stored.Some? ==>
              && Get(Load(Some(stored.value)), key) == Some(KString(value))
              && Holds(stored.value, key, value)
              && forall other :: other != key ==> Get(Load(Some(stored.value)), other) == Get(data, other)
    ensures Put(data, key, value).None? ==> Get(Load(Some(data)), key) == Some(KNotSet)
  {
  }
}
