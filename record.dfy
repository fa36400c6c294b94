/** A plain JavaScript object with string values, such as a form's `formData`: its
    entries in insertion order, which is the order `Object.entries` reports. */
module Record {

  datatype Entry = Entry(key: string, value: string)

  type Entries = seq<Entry>

  /** The object's keys in insertion order (`Object.keys`). */
  function Keys(e: Entries): (r: seq<string>)
    ensures |r| == |e|
    ensures forall i :: 0 <= i < |e| ==> r[i] == e[i].key
  {
    if |e| == 0 then [] else [e[0].key] + Keys(e[1..])
  }

  /** No key occurs twice, as in every JavaScript object. */
  predicate UniqueKeys(e: Entries) {
    forall i, j :: 0 <= i < j < |e| ==> e[i].key != e[j].key
  }

  /** Every key of `names` is present. */
  predicate HasAll(e: Entries, names: seq<string>) {
    forall n :: n in names ==> n in Keys(e)
  }

  /** `obj[key]` for a key that is present. */
  function Lookup(e: Entries, key: string): string
    requires key in Keys(e)
  {
    if e[0].key == key then e[0].value else Lookup(e[1..], key)
  }

  /** `{ ...obj, [key]: value }`: an existing key keeps its position and takes the new
      value; a new key is added at the end. */
  function Set(e: Entries, key: string, value: string): Entries {
    if |e| == 0 then [Entry(key, value)]
    else if e[0].key == key then [Entry(key, value)] + e[1..]
    else [e[0]] + Set(e[1..], key, value)
  }

  /** A fresh object with the given keys, each mapped to "" (the forms' initial state). */
  function Blank(names: seq<string>): (r: Entries)
    ensures |r| == |names|
    ensures forall i :: 0 <= i < |names| ==> r[i] == Entry(names[i], "")
  {
    seq(|names|, i requires 0 <= i < |names| => Entry(names[i], ""))
  }

  /** The entry found by `Lookup` is the one at the key's position. */
  lemma {:induction false} LookupAt(e: Entries, i: nat)
    requires UniqueKeys(e) && i < |e|
    ensures e[i].key in Keys(e) && Lookup(e, e[i].key) == e[i].value
  {
    if i > 0 {
      LookupAt(e[1..], i - 1);
    }
  }

  /** Setting a key keeps the keys in place and adds a new key last. */
  lemma {:induction false} SetKeys(e: Entries, key: string, value: string)
    ensures Keys(Set(e, key, value)) == if key in Keys(e) then Keys(e) else Keys(e) + [key]
  {
    if |e| > 0 {
      assert Keys(e) == [e[0].key] + Keys(e[1..]);
      if e[0].key != key {
        SetKeys(e[1..], key, value);
        assert Keys(Set(e, key, value)) == [e[0].key] + Keys(Set(e[1..], key, value));
      } else {
        assert Keys(Set(e, key, value)) == [key] + Keys(e[1..]);
      }
    }
  }

  /** Setting a key keeps the keys unique. */
  lemma SetUnique(e: Entries, key: string, value: string)
    requires UniqueKeys(e)
    ensures UniqueKeys(Set(e, key, value))
  {
    var r := Set(e, key, value);
    SetKeys(e, key, value);
    assert forall i :: 0 <= i < |r| ==> r[i].key == Keys(r)[i];
    assert forall i :: 0 <= i < |e| ==> Keys(r)[i] == e[i].key;
  }

  /** After setting a key, that key reads back the new value. */
  lemma {:induction false} SetLookupSame(e: Entries, key: string, value: string)
    ensures key in Keys(Set(e, key, value)) && Lookup(Set(e, key, value), key) == value
  {
    var r := Set(e, key, value);
    assert Keys(r) == [r[0].key] + Keys(r[1..]);
    if |e| > 0 && e[0].key != key {
      SetLookupSame(e[1..], key, value);
      assert r[1..] == Set(e[1..], key, value);
    }
  }

  /** Setting a key leaves every other key present with its old value. */
  lemma {:induction false} SetLookupOther(e: Entries, key: string, value: string, k: string)
    requires k in Keys(e) && k != key
    ensures k in Keys(Set(e, key, value)) && Lookup(Set(e, key, value), k) == Lookup(e, k)
  {
    var r := Set(e, key, value);
    assert Keys(r) == [r[0].key] + Keys(r[1..]);
    assert Keys(e) == [e[0].key] + Keys(e[1..]);
    if e[0].key != k {
      if e[0].key == key {
        assert r[1..] == e[1..];
      } else {
        SetLookupOther(e[1..], key, value, k);
        assert r[1..] == Set(e[1..], key, value);
      }
    }
  }

  /** `Blank` of distinct names has unique keys, namely those names, each holding "". */
  lemma BlankSpec(names: seq<string>)
    requires forall i, j :: 0 <= i < j < |names| ==> names[i] != names[j]
    ensures UniqueKeys(Blank(names)) && Keys(Blank(names)) == names
    ensures forall n :: n in names ==> Lookup(Blank(names), n) == ""
  {
    var b := Blank(names);
    assert Keys(b) == names;
    forall n | n in names ensures Lookup(b, n) == "" {
      var i :| 0 <= i < |names| && names[i] == n;
      LookupAt(b, i);
    }
  }
}
