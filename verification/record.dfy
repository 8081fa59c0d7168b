/**
  The three shapes a data record can take, with the per-record value
  extraction that the row renderer performs for every column
  (classes/worksheet.php, `_set_row`).
 */
module Records {
  import opened PhpArray
  import opened PhpValue

  /** One element of the worksheet's data: a PHP array, an object, or anything
      else. An object's zero-argument methods are represented by the values they
      return; its fields by their current values. */
  datatype Record =
    | Arr(entries: PArray<Value>)
    | Obj(methods: map<string, Value>, fields: map<Key, Value>)
    | Other

  /** A method can only be named by a string key; an integer key never names one. */
  predicate HasMethod(methods: map<string, Value>, key: Key)
  {
    key.StrKey? && key.s in methods
  }

  /** `isset($data->$key)`: the field exists and is not NULL. */
  predicate IsSetField(fields: map<Key, Value>, key: Key)
  {
    key in fields && fields[key] != Null
  }

  /** The value `_set_row` places in the cell of column `key` for `record`:
      an array is indexed by the column KEY (not the column's position); an
      object answers with the method named `key`, else the set field named
      `key`; anything else gives NULL. */
  function Extract(record: Record, key: Key): (v: Value)
    ensures v != Null ==> !record.Other?
    ensures record.Obj? && v != Null ==>
              (HasMethod(record.methods, key) && v == record.methods[key.s]) ||
              (key in record.fields && v == record.fields[key])
    ensures record.Obj? && !HasMethod(record.methods, key) ==> (v != Null <==> IsSetField(record.fields, key))
  {
    match record
    case Arr(a) => Get(a, key)
    case Obj(methods, fields) =>
      if HasMethod(methods, key) then methods[key.s]
      else if IsSetField(fields, key) then fields[key]
      else Null
    case Other => Null
  }

  /** A keyed record yields the value stored under the column key, and NULL
      (not an error) when the key is missing. */
  lemma ArrayRecordByKey(a: PArray<Value>, key: Key)
    requires WellFormed(a)
    ensures forall i :: 0 <= i < |a| && a[i].key == key ==> Extract(Arr(a), key) == a[i].value
    ensures (forall i :: 0 <= i < |a| ==> a[i].key != key) ==> Extract(Arr(a), key) == Null
  {
    GetSpec(a, key);
  }

  /** A list-style record `array(v0, v1, ...)` is read at position `n` only by
      the integer key `n`; any string key finds nothing. */
  lemma ListRecordByKey(vs: seq<Value>, key: Key)
    ensures Extract(Arr(FromList(vs)), key) ==
              if key.IntKey? && 0 <= key.i < |vs| then vs[key.i] else Null
  {
    FromListFind(vs, key);
  }

  /** A method shadows a field of the same name, whatever the field holds. */
  lemma MethodWinsOverField(methods: map<string, Value>, fields: map<Key, Value>, name: string)
    requires name in methods
    ensures Extract(Obj(methods, fields), StrKey(name)) == methods[name]
  {
  }

  /** With no method of that name, an object yields its set field, and NULL
      when the field is unset or holds NULL. */
  lemma FieldWhenNoMethod(methods: map<string, Value>, fields: map<Key, Value>, key: Key)
    requires !HasMethod(methods, key)
    ensures Extract(Obj(methods, fields), key) == if IsSetField(fields, key) then fields[key] else Null
  {
  }

  /** A field that holds NULL reads exactly like a field that is absent. */
  lemma NullFieldIsAbsent(methods: map<string, Value>, fields: map<Key, Value>, key: Key)
    ensures Extract(Obj(methods, fields[key := Null]), key) == Extract(Obj(methods, fields - {key}), key)
  {
  }
}
