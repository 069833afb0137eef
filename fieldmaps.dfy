/** The fields attached to every record (`logrus.Entry.Data`) and the two ways
    the logger adds to them. Either way, the last write for a key wins. */
module FieldMaps {

  /** The dynamic values a caller attaches; other Go types are not modelled. */
  datatype Value = StringValue(s: string) | IntValue(i: int) | BoolValue(b: bool)

  type Fields = map<string, Value>

  /** `Entry.WithField(key, value)`: the fields with `key` set to `value`. */
  function WithField(data: Fields, key: string, value: Value): (r: Fields)
    ensures r.Keys == data.Keys + {key}
    ensures r[key] == value
    ensures forall k :: k in data && k != key ==> r[k] == data[k]
  {
    data[key := value]
  }

  /** `Entry.WithFields(fs)`: every key of `fs` takes its value from `fs`, the
      other keys keep theirs. */
  function WithFields(data: Fields, fs: Fields): (r: Fields)
    ensures r.Keys == data.Keys + fs.Keys
    ensures forall k :: k in fs ==> r[k] == fs[k]
    ensures forall k :: k in data && k !in fs ==> r[k] == data[k]
  {
    data + fs
  }

  /** Adding one field is adding a one-entry map of fields. */
  lemma WithFieldIsWithFields(data: Fields, key: string, value: Value)
    ensures WithField(data, key, value) == WithFields(data, map[key := value])
  {
  }

  /** The fields after a run of single-field additions, oldest first. */
  function AddAll(data: Fields, updates: seq<(string, Value)>): Fields
    decreases |updates|
  {
    if updates == [] then data
    else
      var last := updates[|updates| - 1];
      WithField(AddAll(data, updates[..|updates| - 1]), last.0, last.1)
  }

  /** Last write wins: a key holds the value of its latest addition. */
  lemma {:induction false} LastWriteWins(data: Fields, updates: seq<(string, Value)>, i: nat)
    requires i < |updates|
    requires forall j :: i < j < |updates| ==> updates[j].0 != updates[i].0
    ensures updates[i].0 in AddAll(data, updates)
    ensures AddAll(data, updates)[updates[i].0] == updates[i].1
  {
    if i < |updates| - 1 {
      LastWriteWins(data, updates[..|updates| - 1], i);
    }
  }

  /** A key no addition names keeps whatever it had before. */
  lemma {:induction false} UntouchedKeyKept(data: Fields, updates: seq<(string, Value)>, k: string)
    requires forall j :: 0 <= j < |updates| ==> updates[j].0 != k
    ensures k in AddAll(data, updates) <==> k in data
    ensures k in data ==> AddAll(data, updates)[k] == data[k]
  {
    if updates != [] {
      UntouchedKeyKept(data, updates[..|updates| - 1], k);
    }
  }
}
