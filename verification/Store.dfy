/**
 The per-model manifests on disk. The map is what the files say: a write
 reaches the map only after the disk took it, so a reboot finds this map.
 */
module StateStore {
  import opened Wrappers
  import opened ProcessTables

  const DEFAULT_MAX_RESTARTS: nat := 10

  datatype Stored = Stored(
    spec: Spec, desired: bool, userFlagged: bool, maxRestarts: nat, persistedRestartCount: nat)

  type Manifests = map<Key, Stored>

  predicate ValidKey(k: Key) {
    k != "" && '/' !in k && forall i :: 0 < i < |k| && k[i] == '.' ==> k[i - 1] != '.'
  }

  /** A key is a file name: not empty, no slash, no two dots in a row anywhere. */
  lemma ValidKeyMeans(k: Key)
    ensures ValidKey(k) <==> |k| > 0 && '/' !in k && forall a, b :: k != a + ".." + b
  {
    forall a, b | k == a + ".." + b ensures !ValidKey(k) {
      assert k[|a| + 1] == '.' && k[|a| + 1 - 1] == '.';
    }
    if !ValidKey(k) && |k| > 0 && '/' !in k {
      var i :| 0 < i < |k| && k[i] == '.' && k[i - 1] == '.';
      assert k == k[..i - 1] + ".." + k[i + 1..];
    }
  }

  // Re-inserting keeps the operator's mark, the budget and the persisted tally.
  function Inserted(m: Manifests, k: Key, spec: Spec, desired: bool): Manifests {
    m[k := if k in m then m[k].(spec := spec, desired := desired)
           else Stored(spec, desired, false, DEFAULT_MAX_RESTARTS, 0)]
  }

  function Tripped(m: Manifests, k: Key, tally: nat): Manifests {
    if k in m then m[k := m[k].(userFlagged := true, persistedRestartCount := tally)] else m
  }

  function Zeroed(m: Manifests, k: Key): Manifests {
    if k in m then m[k := m[k].(persistedRestartCount := 0)] else m
  }

  /** The boot sweep replays a manifest only in this state. */
  predicate Replayable(s: Stored) {
    s.desired && !s.userFlagged && s.persistedRestartCount < s.maxRestarts
  }

  /** `diskTakes` is the outcome of the temp-file write and rename. */
  class Store {
    var entries: Manifests

    constructor (found: Manifests)
      ensures entries == found
    {
      entries := found;
    }

    method Insert(k: Key, spec: Spec, desired: bool, diskTakes: bool) returns (ok: bool)
      modifies this
      ensures ok == (ValidKey(k) && diskTakes)
      ensures entries == if ok then Inserted(old(entries), k, spec, desired) else old(entries)
      ensures ok && k in old(entries) ==>
        var was := old(entries)[k];
        entries == old(entries)[k := Stored(spec, desired, was.userFlagged, was.maxRestarts, was.persistedRestartCount)]
      ensures ok && k !in old(entries) ==> entries == old(entries)[k := Stored(spec, desired, false, 10, 0)]
    {
      if !ValidKey(k) {
        return false;
      }
      var userFlagged, maxRestarts, tally := false, DEFAULT_MAX_RESTARTS, 0;
      if k in entries {
        userFlagged, maxRestarts, tally :=
          entries[k].userFlagged, entries[k].maxRestarts, entries[k].persistedRestartCount;
      }
      ok := diskTakes;
      if ok {
        entries := entries[k := Stored(spec, desired, userFlagged, maxRestarts, tally)];
      }
    }

    method SetTripped(k: Key, tally: nat, diskTakes: bool) returns (ok: bool)
      modifies this
      ensures ok == (ValidKey(k) && k in old(entries) && diskTakes)
      ensures entries == if ok then Tripped(old(entries), k, tally) else old(entries)
      ensures ok ==>
        var was := old(entries)[k];
        entries == old(entries)[k := Stored(was.spec, was.desired, true, was.maxRestarts, tally)]
    {
      if !ValidKey(k) || k !in entries {
        return false;
      }
      ok := diskTakes;
      if ok {
        entries := entries[k := entries[k].(userFlagged := true, persistedRestartCount := tally)];
      }
    }

    method ZeroPersistedRestartCount(k: Key, diskTakes: bool) returns (ok: bool)
      modifies this
      ensures ok == (ValidKey(k) && k in old(entries) && diskTakes)
      ensures entries == if ok then Zeroed(old(entries), k) else old(entries)
      ensures ok ==>
        var was := old(entries)[k];
        entries == old(entries)[k := Stored(was.spec, was.desired, was.userFlagged, was.maxRestarts, 0)]
    {
      if !ValidKey(k) || k !in entries {
        return false;
      }
      ok := diskTakes;
      if ok {
        entries := entries[k := entries[k].(persistedRestartCount := 0)];
      }
    }

    method Delete(k: Key, diskTakes: bool) returns (ok: bool)
      modifies this
      ensures ok == (!ValidKey(k) || diskTakes)
      ensures entries == if ValidKey(k) && diskTakes then old(entries) - {k} else old(entries)
    {
      if !ValidKey(k) {
        return true;
      }
      ok := diskTakes;
      if ok {
        entries := entries - {k};
      }
    }

    /** Three attempts at the trip write; the first success ends them. */
    method PersistTripped(k: Key, tally: nat, diskTakes: seq<bool>) returns (ok: bool)
      requires |diskTakes| == 3
      modifies this
      ensures ok == (ValidKey(k) && k in old(entries) && true in diskTakes)
      ensures entries == if ok then Tripped(old(entries), k, tally) else old(entries)
      ensures ok ==>
        var was := old(entries)[k];
        entries == old(entries)[k := Stored(was.spec, was.desired, true, was.maxRestarts, tally)]
    {
      ok := false;
      var attempt := 0;
      while attempt < 3 && !ok
        invariant 0 <= attempt <= 3
        invariant ok ==> ValidKey(k) && k in old(entries) && true in diskTakes[..attempt]
        invariant !ok && ValidKey(k) && k in old(entries) ==> true !in diskTakes[..attempt]
        invariant entries == if ok then Tripped(old(entries), k, tally) else old(entries)
      {
        ok := SetTripped(k, tally, diskTakes[attempt]);
        attempt := attempt + 1;
      }
      assert attempt == 3 ==> diskTakes[..attempt] == diskTakes;
    }
  }
}
