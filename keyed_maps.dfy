/** Building a lookup table by setting one key after another, as the source
    does with `map.set(k, v)` and `obj[k] = v` inside a loop: a later entry for
    the same key overwrites an earlier one, and an entry whose key is empty
    (falsy in JavaScript) is skipped. */
module KeyedMaps {

  /** The table left by applying `entries` in order. */
  function LastWins<V>(entries: seq<(string, V)>): (m: map<string, V>)
    ensures forall k :: k in m ==> k != ""
    ensures |m| <= |entries|
  {
    if entries == [] then map[]
    else
      var m := LastWins(entries[..|entries| - 1]);
      var e := entries[|entries| - 1];
      if e.0 != "" then m[e.0 := e.1] else m
  }

  /** Adding one entry at the end is one more `set`. */
  lemma LastWinsSnoc<V>(entries: seq<(string, V)>, e: (string, V))
    ensures LastWins(entries + [e]) == if e.0 != "" then LastWins(entries)[e.0 := e.1] else LastWins(entries)
  {
    assert (entries + [e])[..|entries|] == entries;
  }

  /** A key is in the table exactly when it is non-empty and some entry names it. */
  lemma {:induction false} LastWinsDomain<V>(entries: seq<(string, V)>, k: string)
    ensures k in LastWins(entries) <==> k != "" && exists i :: 0 <= i < |entries| && entries[i].0 == k
  {
    if entries != [] {
      var p := entries[..|entries| - 1];
      LastWinsDomain(p, k);
      if k in LastWins(p) {
        var i :| 0 <= i < |p| && p[i].0 == k;
        assert entries[i].0 == k;
      }
      if k != "" && (exists i :: 0 <= i < |entries| && entries[i].0 == k) {
        var i :| 0 <= i < |entries| && entries[i].0 == k;
        if i < |p| { assert p[i].0 == k; }
      }
    }
  }

  /** The value of a key is the value of the LAST entry that names it. */
  lemma {:induction false} LastWinsValue<V>(entries: seq<(string, V)>, i: nat)
    requires i < |entries| && entries[i].0 != ""
    requires forall j :: i < j < |entries| ==> entries[j].0 != entries[i].0
    ensures entries[i].0 in LastWins(entries)
    ensures LastWins(entries)[entries[i].0] == entries[i].1
  {
    if i < |entries| - 1 {
      var p := entries[..|entries| - 1];
      assert p[i] == entries[i];
      LastWinsValue(p, i);
    }
  }

  /** A key that no entry names is absent from the table. */
  lemma LastWinsAbsent<V>(entries: seq<(string, V)>, k: string)
    requires forall i :: 0 <= i < |entries| ==> entries[i].0 != k
    ensures k !in LastWins(entries)
  {
    LastWinsDomain(entries, k);
  }
}
