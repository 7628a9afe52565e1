/**
 Batched reads with fallback to the archive: gfAll asks the main store for every key, the
 archive for the ones missing there, and fills the gaps in place. parse is JSON.parse with
 the raw value as its fallback; None is a missing value.
 */
module BatchRead {
  import opened Options

  type Store = map<string, string>

  function Read(store: Store, key: string): Option<string> {
    if key in store then Some(store[key]) else None
  }

  /** gf: one key. */
  function Gf<T>(main: Store, archive: Store, parse: Option<string> -> T, key: string): T {
    var v := Read(main, key);
    parse(if v.Some? then v else Read(archive, key))
  }

  method MGet(store: Store, keys: seq<string>) returns (values: array<Option<string>>)
    ensures fresh(values) && values.Length == |keys|
    ensures forall i :: 0 <= i < |keys| ==> values[i] == Read(store, keys[i])
  {
    values := new Option<string>[|keys|](i requires 0 <= i < |keys| => Read(store, keys[i]));
  }

  /** missing lists, in order, exactly the indices of vs that hold nothing. */
  predicate Lists(missing: seq<nat>, vs: seq<Option<string>>) {
    && (forall j :: 0 <= j < |missing| ==> missing[j] < |vs| && vs[missing[j]].None?)
    && (forall j, k :: 0 <= j < k < |missing| ==> missing[j] < missing[k])
    && (forall i :: 0 <= i < |vs| && vs[i].None? ==> i in missing)
  }

  method Missing(values: array<Option<string>>) returns (missing: seq<nat>)
    ensures Lists(missing, values[..])
  {
    missing := [];
    for i := 0 to values.Length
      invariant Lists(missing, values[..i])
    {
      assert values[..i + 1] == values[..i] + [values[i]];
      if values[i].None? {
        missing := missing + [i];
      }
    }
    assert values[..values.Length] == values[..];
  }

  /** What the values at the missing indices are replaced by. */
  method FillIn(values: array<Option<string>>, missing: seq<nat>, found: array<Option<string>>)
    requires Lists(missing, values[..]) && found.Length == |missing| && found != values
    modifies values
    ensures forall j :: 0 <= j < |missing| ==> values[missing[j]] == found[j]
    ensures forall i :: 0 <= i < values.Length && i !in missing ==> values[i] == old(values[i])
  {
    for j := 0 to |missing|
      invariant forall l :: 0 <= l < j ==> values[missing[l]] == found[l]
      invariant forall i :: 0 <= i < values.Length && i !in missing ==> values[i] == old(values[i])
    {
      assert missing[j] in missing;
      values[missing[j]] := found[j];
    }
  }

  /** gfAll gives, in order, exactly what gf gives for each key, repeats included. */
  method GfAll<T>(main: Store, archive: Store, parse: Option<string> -> T, keys: seq<string>) returns (r: seq<T>)
    ensures |r| == |keys|
    ensures forall i :: 0 <= i < |keys| ==> r[i] == Gf(main, archive, parse, keys[i])
    ensures forall i :: 0 <= i < |keys| ==>
              r[i] == if keys[i] in main then parse(Some(main[keys[i]]))
                      else if keys[i] in archive then parse(Some(archive[keys[i]])) else parse(None)
  {
    if keys == [] { return []; }
    var values := MGet(main, keys);
    ghost var first := values[..];
    var missing := Missing(values);
    if missing != [] {
      var archiveKeys := seq(|missing|, j requires 0 <= j < |missing| => keys[missing[j]]);
      var archiveValues := MGet(archive, archiveKeys);
      FillIn(values, missing, archiveValues);
    }
    forall i | 0 <= i < |keys|
      ensures values[i] == if first[i].Some? then first[i] else Read(archive, keys[i])
    {
      if i in missing {
        var j :| 0 <= j < |missing| && missing[j] == i;
      }
    }
    r := seq(|keys|, i requires 0 <= i < |keys| reads values => parse(values[i]));
  }
}
