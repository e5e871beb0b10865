/**
 * Specification functions over the layers of a manifest: which blobs a pull
 * has to fetch, which layer ids it returns and in what order, which layers it
 * extracts, and the schema 2 URL lists of the blobs. The loops of
 * `fetchBlobs` and `___pull` (module RegistryPuller) are proved against them.
 *
 * The recursive definitions peel off the LAST element, because the loops
 * they specify append at the end.
 */
module Layers {
  import opened DockerSpec

  /** Pairs `fsLayers(i)` with `history(i)`; the puller only does so when the sizes agree. */
  function Zip(m: V2Manifest): (layers: seq<Layer>)
    requires |m.fsLayers| == |m.history|
    ensures |layers| == |m.fsLayers|
    ensures forall i :: 0 <= i < |layers| ==> layers[i].blobSum == m.fsLayers[i] && layers[i].id == m.history[i]
  {
    seq(|m.fsLayers|, i requires 0 <= i < |m.fsLayers| => Layer(m.fsLayers[i], m.history[i]))
  }

  function Ids(layers: seq<Layer>): seq<string>
  {
    seq(|layers|, i requires 0 <= i < |layers| => layers[i].id)
  }

  lemma IdsSnoc(layers: seq<Layer>, i: nat)
    requires i < |layers|
    ensures Ids(layers[..i + 1]) == Ids(layers[..i]) + [layers[i].id]
  {
    assert Ids(layers[..i + 1])[..i] == Ids(layers[..i]);
  }

  predicate NoDuplicates<T(==)>(s: seq<T>)
  {
    forall i, j :: 0 <= i < j < |s| ==> s[i] != s[j]
  }

  // ----- first occurrences -----

  /** The position of the first `x` in `s`. */
  function FirstIndex<T(==)>(s: seq<T>, x: T): (k: nat)
    requires x in s
    ensures k < |s| && s[k] == x
    ensures forall j :: 0 <= j < k ==> s[j] != x
  {
    if s[0] == x then 0 else 1 + FirstIndex(s[1..], x)
  }

  lemma FirstIndexOfPrefix<T>(p: seq<T>, q: seq<T>, x: T)
    requires x in p
    ensures FirstIndex(p + q, x) == FirstIndex(p, x)
  {
    var k, k' := FirstIndex(p + q, x), FirstIndex(p, x);
    assert (p + q)[k'] == x;
    assert k <= k';
    assert p[k] == x;
  }

  lemma FirstIndexOfNew<T>(p: seq<T>, x: T)
    requires x !in p
    ensures FirstIndex(p + [x], x) == |p|
  {
    var k := FirstIndex(p + [x], x);
    assert (p + [x])[|p|] == x;
    assert forall j :: 0 <= j < |p| ==> (p + [x])[j] == p[j];
  }

  /** Layer `i` is the first with its v1 id. */
  predicate IsFirstOccurrence(layers: seq<Layer>, i: int)
  {
    0 <= i < |layers| && forall j :: 0 <= j < i ==> layers[j].id != layers[i].id
  }

  // ----- deduplication -----

  /** The distinct elements of `s`, in the order of their first occurrence. */
  function Dedup<T(==)>(s: seq<T>): seq<T>
  {
    if s == [] then []
    else
      var d := Dedup(s[..|s| - 1]);
      if s[|s| - 1] in d then d else d + [s[|s| - 1]]
  }

  lemma {:induction false} DedupMembers<T>(s: seq<T>)
    ensures forall x :: x in Dedup(s) <==> x in s
  {
    if s != [] {
      var p := s[..|s| - 1];
      assert s == p + [s[|s| - 1]];
      DedupMembers(p);
    }
  }

  lemma DedupMember<T>(s: seq<T>, x: T)
    ensures x in Dedup(s) <==> x in s
  {
    DedupMembers(s);
  }

  lemma {:induction false} DedupDistinct<T>(s: seq<T>)
    ensures NoDuplicates(Dedup(s))
  {
    if s != [] {
      DedupDistinct(s[..|s| - 1]);
    }
  }

  /** Dedup keeps first-occurrence order. */
  lemma {:induction false} DedupOrder<T>(s: seq<T>, i: nat, j: nat)
    requires i < j < |Dedup(s)|
    ensures Dedup(s)[i] in s && Dedup(s)[j] in s
    ensures FirstIndex(s, Dedup(s)[i]) < FirstIndex(s, Dedup(s)[j])
  {
    var p := s[..|s| - 1];
    var last := s[|s| - 1];
    var d := Dedup(p);
    assert s == p + [last];
    DedupMembers(p);
    if j < |d| {
      DedupOrder(p, i, j);
      FirstIndexOfPrefix(p, [last], d[i]);
      FirstIndexOfPrefix(p, [last], d[j]);
    } else {
      assert last !in p && Dedup(s)[j] == last;
      assert Dedup(s)[i] == d[i] && d[i] in d;
      DedupMember(p, d[i]);
      FirstIndexOfNew(p, last);
      FirstIndexOfPrefix(p, [last], d[i]);
    }
  }

  // ----- reversal -----

  function Reverse<T>(s: seq<T>): (r: seq<T>)
    ensures |r| == |s|
    ensures forall i :: 0 <= i < |s| ==> r[i] == s[|s| - 1 - i]
  {
    if s == [] then [] else [s[|s| - 1]] + Reverse(s[..|s| - 1])
  }

  /** The layer ids `___pull` returns: unique ids, parent first. */
  function PulledLayerIds(layers: seq<Layer>): seq<string>
  {
    Reverse(Dedup(Ids(layers)))
  }

  /**
   * The returned list has no duplicates, holds every v1 id of the manifest,
   * stored or not, and lists them in reverse order of first occurrence.
   */
  lemma PulledLayerIdsProperties(layers: seq<Layer>)
    ensures NoDuplicates(PulledLayerIds(layers))
    ensures forall x :: x in PulledLayerIds(layers) <==> x in Ids(layers)
    ensures forall i, j :: 0 <= i < j < |PulledLayerIds(layers)| ==>
      FirstIndex(Ids(layers), PulledLayerIds(layers)[i]) > FirstIndex(Ids(layers), PulledLayerIds(layers)[j])
  {
    var d := Dedup(Ids(layers));
    var r := PulledLayerIds(layers);
    DedupDistinct(Ids(layers));
    DedupMembers(Ids(layers));
    forall x
      ensures x in r <==> x in d
    {
      if x in d {
        var k :| 0 <= k < |d| && d[k] == x;
        assert r[|d| - 1 - k] == x;
      }
    }
    forall i, j | 0 <= i < j < |r|
      ensures FirstIndex(Ids(layers), r[i]) > FirstIndex(Ids(layers), r[j])
    {
      DedupOrder(Ids(layers), |d| - 1 - j, |d| - 1 - i);
    }
  }

  // ----- blobs to fetch -----

  /** The blob sums of the layers whose v1 id is not in the store, without duplicates. */
  function NeededBlobs(layers: seq<Layer>, store: set<string>): set<string>
  {
    if layers == [] then {}
    else
      var last := layers[|layers| - 1];
      NeededBlobs(layers[..|layers| - 1], store) + (if last.id in store then {} else {last.blobSum})
  }

  lemma {:induction false} NeededBlobsMembers(layers: seq<Layer>, store: set<string>)
    ensures forall b :: b in NeededBlobs(layers, store) <==>
      exists i :: 0 <= i < |layers| && layers[i].id !in store && layers[i].blobSum == b
  {
    if layers != [] {
      var p := layers[..|layers| - 1];
      NeededBlobsMembers(p, store);
      forall b | b in NeededBlobs(layers, store)
        ensures exists i :: 0 <= i < |layers| && layers[i].id !in store && layers[i].blobSum == b
      {
        if b in NeededBlobs(p, store) {
          var i :| 0 <= i < |p| && p[i].id !in store && p[i].blobSum == b;
          assert layers[i] == p[i];
        } else {
          assert layers[|layers| - 1].blobSum == b;
        }
      }
      forall b | exists i :: 0 <= i < |layers| && layers[i].id !in store && layers[i].blobSum == b
        ensures b in NeededBlobs(layers, store)
      {
        var i :| 0 <= i < |layers| && layers[i].id !in store && layers[i].blobSum == b;
        if i < |p| {
          assert p[i] == layers[i];
        }
      }
    }
  }

  // ----- layers to extract -----

  /**
   * The layers `___pull` extracts, in manifest order: the first layer of
   * each v1 id, unless that id is already in the store.
   */
  function NewLayers(layers: seq<Layer>, store: set<string>): seq<Layer>
  {
    if layers == [] then []
    else
      var p := layers[..|layers| - 1];
      var last := layers[|layers| - 1];
      if last.id in Ids(p) || last.id in store then NewLayers(p, store)
      else NewLayers(p, store) + [last]
  }

  lemma IsFirstOccurrenceSnoc(layers: seq<Layer>, i: int)
    requires layers != []
    ensures var p := layers[..|layers| - 1];
      IsFirstOccurrence(layers, i) <==>
        (IsFirstOccurrence(p, i) || (i == |layers| - 1 && layers[i].id !in Ids(p)))
  {
    var p := layers[..|layers| - 1];
    if i == |layers| - 1 && layers[i].id in Ids(p) {
      var j :| 0 <= j < |p| && Ids(p)[j] == layers[i].id;
      assert layers[j].id == layers[i].id;
    }
    if i == |layers| - 1 && layers[i].id !in Ids(p) {
      forall j | 0 <= j < i
        ensures layers[j].id != layers[i].id
      {
        assert Ids(p)[j] == layers[j].id;
      }
    }
  }

  /** A layer is extracted exactly when it is the first with its id and the id is not stored. */
  lemma {:induction false} NewLayersMembers(layers: seq<Layer>, store: set<string>)
    ensures forall e :: e in NewLayers(layers, store) <==>
      exists i :: IsFirstOccurrence(layers, i) && layers[i] == e && e.id !in store
  {
    if layers != [] {
      var p := layers[..|layers| - 1];
      var n := |layers| - 1;
      NewLayersMembers(p, store);
      forall i
        ensures IsFirstOccurrence(layers, i) <==>
          (IsFirstOccurrence(p, i) || (i == n && layers[i].id !in Ids(p)))
      {
        IsFirstOccurrenceSnoc(layers, i);
      }
      forall e
        ensures e in NewLayers(layers, store) <==>
          exists i :: IsFirstOccurrence(layers, i) && layers[i] == e && e.id !in store
      {
        if e in NewLayers(layers, store) {
          if e in NewLayers(p, store) {
            var i :| IsFirstOccurrence(p, i) && p[i] == e && e.id !in store;
            assert layers[i] == e;
          } else {
            assert IsFirstOccurrence(layers, n) && layers[n] == e;
          }
        }
        if exists i :: IsFirstOccurrence(layers, i) && layers[i] == e && e.id !in store {
          var i :| IsFirstOccurrence(layers, i) && layers[i] == e && e.id !in store;
          if i < n {
            assert IsFirstOccurrence(p, i) && p[i] == e;
          }
        }
      }
    }
  }

  /** No two extracted layers share a v1 id. */
  lemma {:induction false} NewLayersDistinct(layers: seq<Layer>, store: set<string>)
    ensures NoDuplicates(Ids(NewLayers(layers, store)))
  {
    if layers != [] {
      var p := layers[..|layers| - 1];
      var last := layers[|layers| - 1];
      var q := NewLayers(p, store);
      NewLayersDistinct(p, store);
      if !(last.id in Ids(p) || last.id in store) {
        NewLayersMembers(p, store);
        forall k | 0 <= k < |q|
          ensures q[k].id != last.id
        {
          var i :| IsFirstOccurrence(p, i) && p[i] == q[k] && q[k].id !in store;
          assert Ids(p)[i] == q[k].id;
        }
        assert Ids(q + [last]) == Ids(q) + [last.id];
      }
    }
  }

  /** The extractions computed from a prefix of the manifest begin those of the whole. */
  lemma {:induction false} NewLayersPrefix(layers: seq<Layer>, store: set<string>, i: nat)
    requires i <= |layers|
    ensures NewLayers(layers[..i], store) <= NewLayers(layers, store)
    decreases |layers|
  {
    if i < |layers| {
      var p := layers[..|layers| - 1];
      assert layers[..i] == p[..i];
      NewLayersPrefix(p, store, i);
    } else {
      assert layers[..i] == layers;
    }
  }

  /** Every tarball that is extracted was among the blobs fetched. */
  lemma ExtractedBlobsWereFetched(layers: seq<Layer>, store: set<string>, e: Layer)
    requires e in NewLayers(layers, store)
    ensures e.blobSum in NeededBlobs(layers, store)
  {
    NewLayersMembers(layers, store);
    NeededBlobsMembers(layers, store);
    var i :| IsFirstOccurrence(layers, i) && layers[i] == e && e.id !in store;
    assert layers[i].id !in store && layers[i].blobSum == e.blobSum;
  }

  /**
   * How many extractions are prepared before the first failure to create a
   * layer's rootfs directory or to write its layer manifest.
   */
  function PreparedCount(nl: seq<Layer>, mkdirOk: string -> bool, writeOk: string -> bool): (k: nat)
    ensures k <= |nl|
    ensures forall i :: 0 <= i < k ==> mkdirOk(nl[i].id) && writeOk(nl[i].id)
    ensures k < |nl| ==> !(mkdirOk(nl[k].id) && writeOk(nl[k].id))
  {
    if nl == [] || !(mkdirOk(nl[0].id) && writeOk(nl[0].id)) then 0
    else 1 + PreparedCount(nl[1..], mkdirOk, writeOk)
  }

  /** `PreparedCount` is the length of the longest prefix whose preparation succeeds. */
  lemma PreparedCountIs(nl: seq<Layer>, n: nat, mkdirOk: string -> bool, writeOk: string -> bool)
    requires n <= |nl|
    requires forall i :: 0 <= i < n ==> mkdirOk(nl[i].id) && writeOk(nl[i].id)
    requires n < |nl| ==> !(mkdirOk(nl[n].id) && writeOk(nl[n].id))
    ensures PreparedCount(nl, mkdirOk, writeOk) == n
  {
  }

  // ----- schema 2 URL lists -----

  /** The digests of the schema 2 layers. */
  function Digests(layers: seq<S2Layer>): set<string>
  {
    set i | 0 <= i < |layers| :: layers[i].digest
  }

  /** The URLs of every schema 2 layer with this digest, concatenated in layer order. */
  function UrlsFor(layers: seq<S2Layer>, digest: string): seq<string>
  {
    if layers == [] then []
    else
      var last := layers[|layers| - 1];
      UrlsFor(layers[..|layers| - 1], digest) + (if last.digest == digest then last.urls else [])
  }

  /** The `urls` map of `fetchBlobs`: digest to URL list. */
  function UrlMap(layers: seq<S2Layer>): map<string, seq<string>>
  {
    map d | d in Digests(layers) :: UrlsFor(layers, d)
  }

  /** A digest listed once gets exactly that layer's URLs. */
  lemma {:induction false} UrlsForSingle(layers: seq<S2Layer>, i: nat)
    requires i < |layers|
    requires forall j :: 0 <= j < |layers| && j != i ==> layers[j].digest != layers[i].digest
    ensures UrlsFor(layers, layers[i].digest) == layers[i].urls
  {
    var p := layers[..|layers| - 1];
    if i < |layers| - 1 {
      forall j | 0 <= j < |p| && j != i
        ensures p[j].digest != p[i].digest
      {
        assert p[j] == layers[j];
      }
      UrlsForSingle(p, i);
    } else {
      UrlsForAbsent(p, layers[i].digest);
    }
  }

  lemma {:induction false} UrlsForAbsent(layers: seq<S2Layer>, digest: string)
    requires forall j :: 0 <= j < |layers| ==> layers[j].digest != digest
    ensures UrlsFor(layers, digest) == []
  {
    if layers != [] {
      UrlsForAbsent(layers[..|layers| - 1], digest);
    }
  }
}
