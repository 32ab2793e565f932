/** Asset-to-weight maps.  The solvers fill a LinkedHashMap, so a map is an
    association list in insertion order, where `put` of a present key
    replaces its value in place. */
module WeightMaps {
  import opened Common
  import opened RealSeq

  datatype Entry = Entry(asset: string, weight: real)
  type WeightMap = seq<Entry>

  /** Position of key `k`, or -1. */
  function IndexOf(m: WeightMap, k: string): (i: int)
    ensures -1 <= i < |m|
    ensures i >= 0 ==> m[i].asset == k && forall j :: 0 <= j < i ==> m[j].asset != k
    ensures i == -1 ==> forall j :: 0 <= j < |m| ==> m[j].asset != k
  {
    if |m| == 0 then -1
    else if m[0].asset == k then 0
    else
      var j := IndexOf(m[1..], k);
      if j == -1 then -1 else j + 1
  }

  /** `Map.get`, with null as None. */
  function Lookup(m: WeightMap, k: string): Option<real>
  {
    var i := IndexOf(m, k);
    if i < 0 then None else Some(m[i].weight)
  }

  /** `Map.put`. */
  function Put(m: WeightMap, k: string, v: real): (r: WeightMap)
  {
    var i := IndexOf(m, k);
    if i < 0 then m + [Entry(k, v)] else m[i := Entry(k, v)]
  }

  lemma IndexOfAt(m: WeightMap, k: string, i: int)
    requires 0 <= i < |m| && m[i].asset == k
    requires forall j :: 0 <= j < i ==> m[j].asset != k
    ensures IndexOf(m, k) == i
  {
  }

  /** After `put(k, v)`, `k` maps to `v` and every other key keeps its value;
      a new key goes to the end, a present key keeps its position. */
  lemma PutLookup(m: WeightMap, k: string, v: real, k2: string)
    ensures Lookup(Put(m, k, v), k2) == if k2 == k then Some(v) else Lookup(m, k2)
    ensures IndexOf(m, k) < 0 ==> Put(m, k, v) == m + [Entry(k, v)]
    ensures IndexOf(m, k) >= 0 ==> |Put(m, k, v)| == |m| && Put(m, k, v)[IndexOf(m, k)] == Entry(k, v)
  {
    var r := Put(m, k, v);
    var i := IndexOf(m, k);
    if i < 0 {
      IndexOfAt(r, k, |m|);
    } else {
      IndexOfAt(r, k, i);
    }
    if k2 != k {
      var j := IndexOf(m, k2);
      if j >= 0 { IndexOfAt(r, k2, j); }
    }
  }

  function Weights(m: WeightMap): seq<real>
  {
    seq(|m|, i requires 0 <= i < |m| => m[i].weight)
  }

  predicate DistinctAssets(assets: seq<string>)
  {
    forall i, j :: 0 <= i < j < |assets| ==> assets[i] != assets[j]
  }

  /** The solvers' closing loop: `out.put(assets.get(i), w[i])` for each i. */
  function BuildMap(assets: seq<string>, w: seq<real>): WeightMap
    requires |assets| <= |w|
  {
    if |assets| == 0 then []
    else Put(BuildMap(assets[..|assets| - 1], w), assets[|assets| - 1], w[|assets| - 1])
  }

  /** With distinct assets the map has one entry per asset, in input order,
      holding that asset's weight. */
  lemma {:induction false} BuildMapDistinct(assets: seq<string>, w: seq<real>)
    requires |assets| <= |w| && DistinctAssets(assets)
    ensures BuildMap(assets, w) == seq(|assets|, i requires 0 <= i < |assets| => Entry(assets[i], w[i]))
  {
    if |assets| > 0 {
      var n := |assets| - 1;
      var prev := assets[..n];
      BuildMapDistinct(prev, w);
      var m := BuildMap(prev, w);
      assert IndexOf(m, assets[n]) == -1 by {
        forall j | 0 <= j < |m| ensures m[j].asset != assets[n] {
          assert m[j].asset == assets[j];
        }
      }
    }
  }
}
