/** The browser collaborators the components use: `localStorage` and the router's `navigate`. */
module Browser {
  import opened Wrappers

  /** A navigation requested through `setTimeout(() => navigate(path), delayMs)`. */
  datatype Scheduled = Scheduled(path: string, delayMs: nat)

  /** The router: every `navigate(path)` call in order, and every delayed one. */
  class Router {
    var visited: seq<string>
    var scheduled: seq<Scheduled>

    constructor()
      ensures visited == [] && scheduled == []
    {
      visited := [];
      scheduled := [];
    }

    /** `navigate(path)`. */
    method Navigate(path: string)
      modifies this
      ensures visited == old(visited) + [path] && scheduled == old(scheduled)
    {
      visited := visited + [path];
    }

    /** `setTimeout(() => navigate(path), delayMs)`: recorded, never fired here. */
    method NavigateAfter(path: string, delayMs: nat)
      modifies this
      ensures scheduled == old(scheduled) + [Scheduled(path, delayMs)] && visited == old(visited)
    {
      scheduled := scheduled + [Scheduled(path, delayMs)];
    }
  }

  /** `localStorage`: a string-to-string store. */
  class Storage {
    var items: map<string, string>

    constructor()
      ensures items == map[]
    {
      items := map[];
    }

    /** `localStorage.getItem(key)`: `None` stands for `null`. */
    function GetItem(key: string): Option<string>
      reads this
    {
      if key in items then Some(items[key]) else None
    }

    /** `localStorage.setItem(key, value)`. */
    method SetItem(key: string, value: string)
      modifies this
      ensures items == old(items)[key := value]
    {
      items := items[key := value];
    }

    /** `localStorage.clear()`: every key is removed. */
    method Clear()
      modifies this
      ensures items == map[]
    {
      items := map[];
    }
  }

  /** The store after the writes `(key, value)`, performed in order, later ones winning. */
  function ApplyWrites(items: map<string, string>, writes: seq<(string, string)>): map<string, string> {
    if |writes| == 0 then items
    else ApplyWrites(items, writes[..|writes| - 1])[writes[|writes| - 1].0 := writes[|writes| - 1].1]
  }

  /** After a sequence of writes, a written key holds the value of its last write. */
  lemma {:induction false} ApplyWritesLastWins(items: map<string, string>, writes: seq<(string, string)>, key: string, i: nat)
    requires i < |writes| && writes[i].0 == key
    requires forall j :: i < j < |writes| ==> writes[j].0 != key
    ensures key in ApplyWrites(items, writes) && ApplyWrites(items, writes)[key] == writes[i].1
  {
    var init := writes[..|writes| - 1];
    if i < |writes| - 1 {
      ApplyWritesLastWins(items, init, key, i);
    }
  }

  /** A key that is never written keeps its old entry, or stays absent. */
  lemma {:induction false} ApplyWritesUntouched(items: map<string, string>, writes: seq<(string, string)>, key: string)
    requires forall i :: 0 <= i < |writes| ==> writes[i].0 != key
    ensures key in ApplyWrites(items, writes) <==> key in items
    ensures key in items ==> ApplyWrites(items, writes)[key] == items[key]
  {
    if |writes| > 0 {
      ApplyWritesUntouched(items, writes[..|writes| - 1], key);
    }
  }

  /** One more write updates the store after the earlier ones. */
  lemma ApplyWritesSnoc(items: map<string, string>, writes: seq<(string, string)>, key: string, value: string)
    ensures ApplyWrites(items, writes + [(key, value)]) == ApplyWrites(items, writes)[key := value]
  {
    assert (writes + [(key, value)])[..|writes|] == writes;
  }
}
