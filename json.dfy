/** JSON values as the modelled code stores them in files and columns, and Python's
    `dict.update` on JSON objects kept as association lists. */
module JsonValues {
  import opened Wrappers
  import opened Collections

  datatype Json =
    | JNull
    | JBool(b: bool)
    | JNum(n: real)
    | JStr(s: string)
    | JArr(items: seq<Json>)
    | JObj(fields: seq<(string, Json)>)

  /** A JSON object in key insertion order. */
  type Object = Dict<string, Json>

  /** `d.update(m)`: each pair of `m` in turn is assigned into `d`. */
  function Update(d: Object, m: Object): Object
  {
    if |m| == 0 then d else Put(Update(d, m[..|m| - 1]), m[|m| - 1].0, m[|m| - 1].1)
  }

  /** Updating keeps keys unique, adds the keys of `m`, and a key takes its value from `m` when
      `m` has it and keeps its old value otherwise. */
  lemma {:induction false} UpdateGet(d: Object, m: Object, k: string)
    requires UniqueKeys(d) && UniqueKeys(m)
    ensures UniqueKeys(Update(d, m))
    ensures HasKey(Update(d, m), k) <==> HasKey(d, k) || HasKey(m, k)
    ensures Get(Update(d, m), k) == if HasKey(m, k) then Get(m, k) else Get(d, k)
  {
    if |m| > 0 {
      var n := |m| - 1;
      var p := m[..n];
      assert forall i :: 0 <= i < n ==> p[i] == m[i];
      assert UniqueKeys(p);
      UpdateGet(d, p, k);
      PutGet(Update(d, p), m[n].0, m[n].1, k);
      GetAt(m, n);
      if k != m[n].0 && HasKey(m, k) {
        var i :| 0 <= i < |m| && m[i].0 == k;
        assert p[i].0 == k;
        GetAt(m, i);
        GetAt(p, i);
      }
    }
  }
}
