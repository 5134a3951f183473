/**
 * Capturing a server's (name, value) enumeration into a JSON-object-like map:
 * each entry is put in turn, so for a name listed more than once the last entry wins.
 */
module Capture {

  /** The map obtained by putting `entries` one after another into an empty map. */
  function Captured<T>(entries: seq<(string, T)>): (m: map<string, T>)
    ensures m.Keys == set e | e in entries :: e.0
  {
    if |entries| == 0 then map[]
    else
      var last := entries[|entries| - 1];
      Captured(entries[..|entries| - 1])[last.0 := last.1]
  }

  /** `i` is the position of the last entry named `name`. */
  ghost predicate LastWith<T>(entries: seq<(string, T)>, name: string, i: int)
  {
    && 0 <= i < |entries|
    && entries[i].0 == name
    && forall j :: i < j < |entries| ==> entries[j].0 != name
  }

  /**
   * A name is in the captured map exactly when some entry carries it, and then it
   * maps to the value of the last entry carrying it.
   */
  lemma {:induction false} CapturedLookup<T>(entries: seq<(string, T)>, name: string)
    ensures name in Captured(entries) <==> exists i :: 0 <= i < |entries| && entries[i].0 == name
    ensures name in Captured(entries) ==>
              exists i :: LastWith(entries, name, i) && Captured(entries)[name] == entries[i].1
  {
    if |entries| != 0 {
      var n := |entries| - 1;
      var init := entries[..n];
      CapturedLookup(init, name);
      if entries[n].0 == name {
        assert LastWith(entries, name, n);
      } else {
        if name in Captured(init) {
          var i :| LastWith(init, name, i) && Captured(init)[name] == init[i].1;
          assert LastWith(entries, name, i);
        }
        if exists i :: 0 <= i < |entries| && entries[i].0 == name {
          var i :| 0 <= i < |entries| && entries[i].0 == name;
          assert init[i].0 == name;
        }
      }
    }
  }

  /** The capture loop: put every entry, in order, into a fresh map. */
  method CaptureEntries<T>(entries: seq<(string, T)>) returns (m: map<string, T>)
    ensures m == Captured(entries)
  {
    m := map[];
    for k := 0 to |entries|
      invariant m == Captured(entries[..k])
    {
      assert entries[..k + 1][..k] == entries[..k];
      m := m[entries[k].0 := entries[k].1];
    }
    assert entries[..|entries|] == entries;
  }
}
