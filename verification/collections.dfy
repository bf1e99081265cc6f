/**
 * The two loops the create and update handlers run over a fixed-collection
 * parameter: copying a few fields of each entry into a new list (funnel
 * steps, segment conditions, alert channels), and folding key/value entries
 * into one object (user traits). Each loop is a method proved equal to the
 * function the handlers' request bodies are stated with.
 */
module Collections {
  import opened Json

  /** `{ f1: v.f1, f2: v.f2, ... }` for the listed fields. */
  function Record(v: Value, fields: seq<string>): (r: Dict)
    ensures r.Keys == set f | f in fields
  {
    map f | f in fields :: Prop(v, f)
  }

  /** What the projection loop pushes: when `group[key]` is an array, one
      record of `fields` per entry, in order; otherwise nothing. */
  function Records(group: Dict, key: string, fields: seq<string>): (r: seq<Value>)
    ensures !Get(group, key).Arr? ==> r == []
    ensures Get(group, key).Arr? ==> |r| == |Get(group, key).items|
    ensures Get(group, key).Arr? ==> forall i :: 0 <= i < |r| ==> r[i] == Obj(Record(Get(group, key).items[i], fields))
  {
    var v := Get(group, key);
    if v.Arr? then seq(|v.items|, i requires 0 <= i < |v.items| => Obj(Record(v.items[i], fields))) else []
  }

  /** Every projected entry has exactly the listed fields, each holding the
      entry's own field, and nothing else of the entry is kept. */
  lemma RecordsFields(group: Dict, key: string, fields: seq<string>)
    ensures forall i :: 0 <= i < |Records(group, key, fields)| ==>
              && Records(group, key, fields)[i].Obj?
              && Records(group, key, fields)[i].fields.Keys == set f | f in fields
              && forall j :: 0 <= j < |fields| ==>
                   Records(group, key, fields)[i].fields[fields[j]] == Prop(Get(group, key).items[i], fields[j])
  {
  }

  /** The loop `for (const x of group[key]) out.push({ ... })`, guarded by
      `group[key] && Array.isArray(group[key])`. */
  method CollectRecords(group: Dict, key: string, fields: seq<string>) returns (out: seq<Value>)
    ensures out == Records(group, key, fields)
  {
    out := [];
    var v := Get(group, key);
    if Truthy(v) && v.Arr? {
      var i := 0;
      while i < |v.items|
        invariant 0 <= i <= |v.items|
        invariant out == Records(group, key, fields)[..i]
      {
        assert Records(group, key, fields)[..i + 1] == Records(group, key, fields)[..i] + [Obj(Record(v.items[i], fields))];
        out := out + [Obj(Record(v.items[i], fields))];
        i := i + 1;
      }
    }
  }

  /** The property key `obj[k] = ...` writes for a key value (`String(k)`). */
  function KeyOf(entry: Value): string
  {
    ToText(Prop(entry, "key"))
  }

  /** The traits object after folding `entries` in order: each entry writes
      its value under its key, so a later duplicate overwrites. */
  function Traits(entries: seq<Value>): Dict
  {
    if entries == [] then map[]
    else Traits(entries[..|entries| - 1])[KeyOf(entries[|entries| - 1]) := Prop(entries[|entries| - 1], "value")]
  }

  /** Every entry's key is a key of the traits object. */
  lemma {:induction false} TraitsHasEveryKey(entries: seq<Value>)
    ensures forall i :: 0 <= i < |entries| ==> KeyOf(entries[i]) in Traits(entries)
  {
    if entries != [] {
      var n := |entries| - 1;
      TraitsHasEveryKey(entries[..n]);
      forall i | 0 <= i < n ensures KeyOf(entries[i]) in Traits(entries) {
        assert entries[..n][i] == entries[i];
      }
    }
  }

  /** The traits object has no key that no entry carries. */
  lemma {:induction false} TraitsHasOnlyEntryKeys(entries: seq<Value>)
    ensures forall k :: k in Traits(entries) ==> exists i :: 0 <= i < |entries| && KeyOf(entries[i]) == k
  {
    if entries != [] {
      var n := |entries| - 1;
      TraitsHasOnlyEntryKeys(entries[..n]);
      forall k | k in Traits(entries) ensures exists i :: 0 <= i < |entries| && KeyOf(entries[i]) == k {
        if k != KeyOf(entries[n]) {
          assert k in Traits(entries[..n]);
          var i :| 0 <= i < n && KeyOf(entries[..n][i]) == k;
          assert entries[..n][i] == entries[i];
        }
      }
    }
  }

  /** Each key holds the value of the LAST entry with that key: a later
      duplicate overwrites an earlier one. */
  lemma {:induction false} TraitsLastWins(entries: seq<Value>)
    ensures forall i :: 0 <= i < |entries| && (forall j :: i < j < |entries| ==> KeyOf(entries[j]) != KeyOf(entries[i]))
              ==> KeyOf(entries[i]) in Traits(entries) && Traits(entries)[KeyOf(entries[i])] == Prop(entries[i], "value")
  {
    if entries != [] {
      var n := |entries| - 1;
      TraitsLastWins(entries[..n]);
      forall i | 0 <= i < n && (forall j :: i < j < |entries| ==> KeyOf(entries[j]) != KeyOf(entries[i]))
        ensures KeyOf(entries[i]) in Traits(entries) && Traits(entries)[KeyOf(entries[i])] == Prop(entries[i], "value")
      {
        LastInPrefix(entries, i);
      }
    }
  }

  /** An entry of the prefix that no later entry overrides is also the last
      of its key within the prefix. */
  lemma LastInPrefix(entries: seq<Value>, i: nat)
    requires i < |entries| - 1
    requires forall j :: i < j < |entries| ==> KeyOf(entries[j]) != KeyOf(entries[i])
    ensures var init := entries[..|entries| - 1];
      && init[i] == entries[i]
      && KeyOf(entries[|entries| - 1]) != KeyOf(entries[i])
      && forall j :: i < j < |init| ==> KeyOf(init[j]) != KeyOf(init[i])
  {
  }

  /** The loop `for (const t of entries) traits[t.key] = t.value`. */
  method FoldTraits(entries: seq<Value>) returns (traits: Dict)
    ensures traits == Traits(entries)
  {
    traits := map[];
    var i := 0;
    while i < |entries|
      invariant 0 <= i <= |entries|
      invariant traits == Traits(entries[..i])
    {
      assert entries[..i + 1][..i] == entries[..i];
      traits := traits[KeyOf(entries[i]) := Prop(entries[i], "value")];
      i := i + 1;
    }
    assert entries[..i] == entries;
  }
}
