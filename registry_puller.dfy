/**
 * The sequential logic of `RegistryPullerProcess` (registry_puller.cpp)
 * without the actor and future machinery: fetch the manifest, check it,
 * fetch the missing blobs, prepare and extract the new layers, remove the
 * tarballs and return the layer ids parent first.
 *
 * Everything the puller asks of the outside world is a parameter in `Env`:
 * each fetch, read, parse, mkdir, write, untar and rm either succeeds or
 * fails, as decided by the environment for that argument. The layer store
 * is the set of layer ids already present. `collect` over a list of futures
 * succeeds when every future does and otherwise fails with the failure of
 * one of the failed ones.
 */
module RegistryPuller {
  import opened Wrappers
  import opened DockerSpec
  import opened Reference
  import opened Layers

  datatype Env = Env(
    registry: RegistryOps,
    fetchOk: FetchRequest -> bool,                     // uri::Fetcher::fetch
    manifestFile: Result<string, string>,              // os::read(<directory>/manifest)
    parseManifest: string -> Result<V2Manifest, string>, // spec::v2::parse
    s2File: Result<string, string>,                    // os::read(<directory>/manifest_v2s2)
    parseS2: string -> Result<S2Manifest, string>,     // spec::v2_2::parse
    mkdirOk: string -> bool,                           // os::mkdir of a layer's rootfs
    writeOk: string -> bool,                           // os::write of a layer's manifest
    untarOk: Layer -> bool,                            // command::untar of a layer's tarball
    rmOk: string -> bool)                              // os::rm of a blob's tarball

  /** The schema 1 manifest `__pull` reads back from the directory, or why it cannot. */
  function ParsedManifest(env: Env): Result<V2Manifest, PullError>
  {
    match env.manifestFile
    case Failure(e) => Failure(ManifestReadError(e))
    case Success(text) =>
      (match env.parseManifest(text)
       case Failure(e) => Failure(ManifestParseError(e))
       case Success(m) => Success(m))
  }

  /** The URL map of the schema 2 manifest, when it could be read and parsed. */
  function SchemaTwoUrls(env: Env): Option<map<string, seq<string>>>
  {
    match env.s2File
    case Failure(_) => None
    case Success(text) =>
      (match env.parseS2(text)
       case Failure(_) => None
       case Success(m) => Some(UrlMap(m.layers)))
  }

  /** The fetch `fetchBlobs` issues for one blob. */
  function BlobRequest(repository: string, endpoint: Endpoint,
                       urls: Option<map<string, seq<string>>>, blobSum: string): FetchRequest
  {
    var uri := BlobUri(repository, blobSum, endpoint);
    if urls.Some? && blobSum in urls.value then WithUrls(uri, urls.value[blobSum]) else Plain(uri)
  }

  /**
   * A blob is fetched with a URL list only when the schema 2 manifest was
   * read and parsed and lists the blob's digest, and the list is then the
   * concatenation of the URLs of every schema 2 layer with that digest.
   */
  lemma BlobRequestUsesUrlsIff(repository: string, endpoint: Endpoint, env: Env, blobSum: string)
    ensures var request := BlobRequest(repository, endpoint, SchemaTwoUrls(env), blobSum);
      && request.uri == BlobUri(repository, blobSum, endpoint)
      && (request.WithUrls? <==>
            && env.s2File.Success?
            && env.parseS2(env.s2File.value).Success?
            && blobSum in Digests(env.parseS2(env.s2File.value).value.layers))
      && (request.WithUrls? ==> request.urls == UrlsFor(env.parseS2(env.s2File.value).value.layers, blobSum))
  {
  }

  lemma UrlMapSnoc(layers: seq<S2Layer>, i: nat)
    requires i < |layers|
    ensures UrlMap(layers[..i + 1])
         == UrlMap(layers[..i])[layers[i].digest := UrlsFor(layers[..i], layers[i].digest) + layers[i].urls]
  {
    var p, q := layers[..i], layers[..i + 1];
    var digest := layers[i].digest;
    assert q[..|q| - 1] == p;
    assert q[|q| - 1] == layers[i];
    assert Digests(q) == Digests(p) + {digest} by {
      forall d | d in Digests(q)
        ensures d in Digests(p) + {digest}
      {
        var j :| 0 <= j < |q| && q[j].digest == d;
        if j < i {
          assert p[j] == q[j];
        }
      }
      forall d | d in Digests(p)
        ensures d in Digests(q)
      {
        var j :| 0 <= j < |p| && p[j].digest == d;
        assert q[j] == p[j];
      }
    }
    var m1 := UrlMap(q);
    var m2 := UrlMap(p)[digest := UrlsFor(p, digest) + layers[i].urls];
    assert m1.Keys == m2.Keys;
    forall d | d in m1.Keys
      ensures m1[d] == m2[d]
    {
      assert UrlsFor(q, d) == UrlsFor(p, d) + (if digest == d then layers[i].urls else []);
    }
  }

  lemma UrlsForNotListed(layers: seq<S2Layer>, digest: string)
    requires digest !in Digests(layers)
    ensures UrlsFor(layers, digest) == []
  {
    forall j | 0 <= j < |layers|
      ensures layers[j].digest != digest
    {
      assert layers[j].digest in Digests(layers);
    }
    UrlsForAbsent(layers, digest);
  }

  /**
   * The `urls` hashmap of `fetchBlobs`. `emplace` keeps the first vector of a
   * digest, so the URLs of layers with the same digest are appended in turn.
   */
  method BuildUrlMap(layers: seq<S2Layer>) returns (urls: map<string, seq<string>>)
    ensures urls == UrlMap(layers)
  {
    urls := map[];
    for i := 0 to |layers|
      invariant urls == UrlMap(layers[..i])
    {
      var digest := layers[i].digest;
      ghost var before := UrlMap(layers[..i]);
      ghost var listed := UrlsFor(layers[..i], digest);
      assert layers[i].urls[..0] == [] && listed + [] == listed;
      if digest !in urls {
        UrlsForNotListed(layers[..i], digest);
        urls := urls[digest := []];
      } else {
        assert urls[digest] == listed;
        assert urls == before[digest := listed];
      }
      for j := 0 to |layers[i].urls|
        invariant urls == before[digest := listed + layers[i].urls[..j]]
      {
        assert layers[i].urls[..j + 1] == layers[i].urls[..j] + [layers[i].urls[j]];
        assert (listed + layers[i].urls[..j]) + [layers[i].urls[j]] == listed + layers[i].urls[..j + 1];
        urls := urls[digest := urls[digest] + [layers[i].urls[j]]];
        assert urls == before[digest := listed + layers[i].urls[..j + 1]];
      }
      assert layers[i].urls[..|layers[i].urls|] == layers[i].urls;
      UrlMapSnoc(layers, i);
    }
    assert layers[..|layers|] == layers;
  }

  /** The first loop of `fetchBlobs`: the blob sums of the layers not in the store. */
  method CollectBlobSums(layers: seq<Layer>, store: set<string>) returns (blobSums: set<string>)
    ensures blobSums == NeededBlobs(layers, store)
  {
    blobSums := {};
    for i := 0 to |layers|
      invariant blobSums == NeededBlobs(layers[..i], store)
    {
      assert layers[..i + 1][..i] == layers[..i];
      // Layers already in the store need no fetch.
      if layers[i].id in store {
        continue;
      }
      blobSums := blobSums + {layers[i].blobSum};
    }
    assert layers[..|layers|] == layers;
  }

  /**
   * The schema 2 part of `fetchBlobs`: read and parse `manifest_v2s2`; on
   * either failure fall back to plain fetches instead of failing.
   */
  method ReadSchemaTwoUrls(env: Env) returns (useS2: bool, urls: map<string, seq<string>>)
    ensures useS2 <==> SchemaTwoUrls(env).Some?
    ensures useS2 ==> urls == SchemaTwoUrls(env).value
    ensures !useS2 ==> urls == map[]
  {
    urls, useS2 := map[], false;
    if env.s2File.Success? {
      var s2 := env.parseS2(env.s2File.value);
      if s2.Success? {
        useS2 := true;
        urls := BuildUrlMap(s2.value.layers);
      }
    }
  }

  /**
   * The second loop of `fetchBlobs`: one fetch per blob sum, in the
   * unspecified iteration order of the hashset, recorded in `order`. The
   * registry endpoint is computed for each blob, so a failing port or scheme
   * lookup fails before the first fetch and never when there is no blob.
   */
  method IssueBlobFetches(ref: ImageRef, defaultUrl: Url, blobSums: set<string>,
                          useS2: bool, urls: map<string, seq<string>>, ops: RegistryOps)
    returns (res: Result<(), PullError>, requests: seq<FetchRequest>, order: seq<string>)
    requires ref.registry.Some? || defaultUrl.HasHost()
    ensures var endpoint := RegistryEndpoint(ref, defaultUrl, ops);
      && (blobSums != {} && endpoint.Failure? ==> res == Failure(endpoint.error) && requests == [])
      && (blobSums == {} || endpoint.Success? ==>
            && res.Success?
            && |requests| == |order| == |blobSums|
            && NoDuplicates(order)
            && (forall b :: b in order <==> b in blobSums)
            && (forall k :: 0 <= k < |requests| ==>
                  endpoint.Success? &&
                  requests[k] == BlobRequest(ref.repository, endpoint.value,
                                             if useS2 then Some(urls) else None, order[k])))
  {
    ghost var endpoint := RegistryEndpoint(ref, defaultUrl, ops);
    ghost var s2Urls := if useS2 then Some(urls) else None;
    requests, order := [], [];
    var remaining := blobSums;
    while remaining != {}
      invariant remaining <= blobSums
      invariant |order| == |requests|
      invariant |order| + |remaining| == |blobSums|
      invariant NoDuplicates(order)
      invariant forall b :: b in order <==> b in blobSums - remaining
      invariant requests != [] ==> endpoint.Success?
      invariant forall k :: 0 <= k < |requests| ==>
        endpoint.Success? && requests[k] == BlobRequest(ref.repository, endpoint.value, s2Urls, order[k])
      decreases remaining
    {
      var blobSum :| blobSum in remaining;
      var ep := RegistryEndpoint(ref, defaultUrl, ops);
      if ep.Failure? {
        res := Failure(ep.error);
        return;
      }
      var uri := BlobUri(ref.repository, blobSum, ep.value);
      var request := if useS2 && blobSum in urls then WithUrls(uri, urls[blobSum]) else Plain(uri);
      assert blobSum !in order;
      requests := requests + [request];
      order := order + [blobSum];
      remaining := remaining - {blobSum};
    }
    res := Success(());
  }

  /**
   * `fetchBlobs`: collect the blob sums to fetch, read the optional schema 2
   * manifest for URL lists, issue the fetches and wait for all of them.
   */
  method FetchBlobs(ref: ImageRef, defaultUrl: Url, layers: seq<Layer>, store: set<string>, env: Env)
    returns (res: Result<set<string>, PullError>, requests: seq<FetchRequest>, order: seq<string>)
    requires ref.registry.Some? || defaultUrl.HasHost()
    ensures var blobs := NeededBlobs(layers, store);
            var endpoint := RegistryEndpoint(ref, defaultUrl, env.registry);
      && (blobs != {} && endpoint.Failure? ==> res == Failure(endpoint.error) && requests == [])
      && (blobs == {} || endpoint.Success? ==>
            && |requests| == |order| == |blobs|
            && NoDuplicates(order)
            && (forall b :: b in order <==> b in blobs)
            && (forall k :: 0 <= k < |requests| ==>
                  endpoint.Success? &&
                  requests[k] == BlobRequest(ref.repository, endpoint.value, SchemaTwoUrls(env), order[k]))
            && (res.Success? <==> forall k :: 0 <= k < |requests| ==> env.fetchOk(requests[k]))
            && (res.Success? ==> res.value == blobs)
            && (res.Failure? ==> exists k :: 0 <= k < |requests| && !env.fetchOk(requests[k])
                                              && res.error == FetchFailed(requests[k].uri)))
  {
    var blobSums := CollectBlobSums(layers, store);
    var useS2, urls := ReadSchemaTwoUrls(env);
    var issued;
    issued, requests, order := IssueBlobFetches(ref, defaultUrl, blobSums, useS2, urls, env.registry);
    if issued.Failure? {
      res := Failure(issued.error);
      return;
    }
    // `collect` of the fetches.
    if exists k :: 0 <= k < |requests| && !env.fetchOk(requests[k]) {
      var k :| 0 <= k < |requests| && !env.fetchOk(requests[k]);
      res := Failure(FetchFailed(requests[k].uri));
    } else {
      res := Success(blobSums);
    }
  }

  /**
   * The removal loop at the end of `___pull`: remove the tarball of every
   * fetched blob, stopping at the first removal that fails. `removed` lists
   * the tarballs removed, in iteration order.
   */
  method RemoveTarballs(blobSums: set<string>, rmOk: string -> bool)
    returns (res: Result<(), PullError>, removed: seq<string>)
    ensures NoDuplicates(removed)
    ensures forall b :: b in removed ==> b in blobSums && rmOk(b)
    ensures res.Success? <==> forall b :: b in blobSums ==> rmOk(b)
    ensures res.Success? ==> forall b :: b in blobSums ==> b in removed
    ensures res.Failure? ==>
      && res.error.TarballRemoveFailed?
      && res.error.blobSum in blobSums
      && !rmOk(res.error.blobSum)
      && res.error.blobSum !in removed
  {
    removed := [];
    var remaining := blobSums;
    while remaining != {}
      invariant remaining <= blobSums
      invariant NoDuplicates(removed)
      invariant forall b :: b in removed ==> rmOk(b)
      invariant forall b :: b in blobSums ==> (b in removed <==> b !in remaining)
      invariant forall b :: b in removed ==> b in blobSums
      decreases remaining
    {
      var blobSum :| blobSum in remaining;
      if !rmOk(blobSum) {
        res := Failure(TarballRemoveFailed(blobSum));
        return;
      }
      removed := removed + [blobSum];
      remaining := remaining - {blobSum};
    }
    res := Success(());
  }

  /** When the extractions of a prefix stop at a failing layer, that is where the whole stops. */
  lemma PreparationStopsAt(layers: seq<Layer>, store: set<string>, i: nat,
                           mkdirOk: string -> bool, writeOk: string -> bool)
    requires i < |layers|
    requires var done := NewLayers(layers[..i], store);
      && NewLayers(layers[..i + 1], store) == done + [layers[i]]
      && (forall k :: 0 <= k < |done| ==> mkdirOk(done[k].id) && writeOk(done[k].id))
      && !(mkdirOk(layers[i].id) && writeOk(layers[i].id))
    ensures var nl := NewLayers(layers, store);
      var k := PreparedCount(nl, mkdirOk, writeOk);
      && k == |NewLayers(layers[..i], store)| < |nl|
      && nl[..k] == NewLayers(layers[..i], store)
      && nl[k] == layers[i]
  {
    var done := NewLayers(layers[..i], store);
    var nl := NewLayers(layers, store);
    NewLayersPrefix(layers, store, i + 1);
    assert nl[..|done| + 1] == done + [layers[i]];
    assert nl[|done|] == layers[i];
    assert nl[..|done|] == done;
    PreparedCountIs(nl, |done|, mkdirOk, writeOk);
  }

  /**
   * What `___pull` does with the new layers `nl` and the fetched `blobSums`,
   * short of succeeding: the prepared prefix is extracted; a failing mkdir or
   * write fails with that layer and removes nothing; a failing untar fails
   * with that layer and removes nothing; a failing removal fails with a blob
   * that cannot be removed; only removable fetched blobs are ever removed.
   */
  ghost predicate ExtractionOutcome(nl: seq<Layer>, blobSums: set<string>, env: Env,
                              res: Result<seq<string>, PullError>, extractions: seq<Layer>, removed: seq<string>)
  {
    var k := PreparedCount(nl, env.mkdirOk, env.writeOk);
    && extractions == nl[..k]
    && (forall b :: b in removed ==> b in blobSums && env.rmOk(b))
    && (k < |nl| ==>
          && removed == []
          && res == Failure(if !env.mkdirOk(nl[k].id) then RootfsMkdirFailed(nl[k].id)
                            else LayerManifestWriteFailed(nl[k].id)))
    && (k == |nl| && (exists e :: e in nl && !env.untarOk(e)) ==>
          && removed == []
          && res.Failure? && res.error.UntarFailed?
          && var e := Layer(res.error.blobSum, res.error.layerId); e in nl && !env.untarOk(e))
    && (k == |nl| && (forall e :: e in nl ==> env.untarOk(e)) && res.Failure? ==>
          res.error.TarballRemoveFailed? && res.error.blobSum in blobSums && !env.rmOk(res.error.blobSum))
  }

  /**
   * `___pull` (non-Windows): walk the layers child first, keep the first
   * layer of each v1 id, prepare (mkdir, write) and schedule the extraction
   * of those not in the store, wait for all extractions, remove the fetched
   * tarballs and return the kept ids parent first.
   */
  method ExtractLayers(layers: seq<Layer>, blobSums: set<string>, store: set<string>, env: Env)
    returns (res: Result<seq<string>, PullError>, extractions: seq<Layer>, removed: seq<string>)
    ensures ExtractionOutcome(NewLayers(layers, store), blobSums, env, res, extractions, removed)
    ensures var nl := NewLayers(layers, store);
      PreparedCount(nl, env.mkdirOk, env.writeOk) == |nl| && (forall e :: e in nl ==> env.untarOk(e)) ==>
        && (res.Success? <==> forall b :: b in blobSums ==> env.rmOk(b))
        && (res.Success? ==> res.value == PulledLayerIds(layers)
                             && forall b :: b in removed <==> b in blobSums)
  {
    var uniqueIds: set<string> := {};
    var layerIds: seq<string> := [];
    extractions, removed := [], [];
    for i := 0 to |layers|
      invariant layerIds == Dedup(Ids(layers[..i]))
      invariant forall x :: x in uniqueIds <==> x in Ids(layers[..i])
      invariant extractions == NewLayers(layers[..i], store)
      invariant forall k :: 0 <= k < |extractions| ==>
        env.mkdirOk(extractions[k].id) && env.writeOk(extractions[k].id)
    {
      var layer := layers[i];
      ghost var before := Ids(layers[..i]);
      IdsSnoc(layers, i);
      assert layers[..i + 1][..i] == layers[..i];
      assert (before + [layer.id])[..|before|] == before;
      DedupMember(before, layer.id);

      // Only the first layer with a given v1 id is kept.
      if layer.id in uniqueIds {
        continue;
      }
      layerIds := layerIds + [layer.id];
      uniqueIds := uniqueIds + {layer.id};

      // A layer whose id is stored is neither prepared nor extracted.
      if layer.id in store {
        continue;
      }
      if !env.mkdirOk(layer.id) {
        PreparationStopsAt(layers, store, i, env.mkdirOk, env.writeOk);
        res := Failure(RootfsMkdirFailed(layer.id));
        return;
      }
      if !env.writeOk(layer.id) {
        PreparationStopsAt(layers, store, i, env.mkdirOk, env.writeOk);
        res := Failure(LayerManifestWriteFailed(layer.id));
        return;
      }
      extractions := extractions + [layer];
    }
    assert layers[..|layers|] == layers;
    ghost var nl := NewLayers(layers, store);
    PreparedCountIs(nl, |nl|, env.mkdirOk, env.writeOk);
    assert nl[..|nl|] == nl;

    // `collect` of the extractions.
    if exists e :: e in extractions && !env.untarOk(e) {
      var e :| e in extractions && !env.untarOk(e);
      res := Failure(UntarFailed(e.blobSum, e.id));
      return;
    }

    // Every extraction succeeded: the fetched tarballs are no longer needed.
    var removal;
    removal, removed := RemoveTarballs(blobSums, env.rmOk);
    if removal.Failure? {
      res := Failure(removal.error);
      return;
    }
    res := Success(Reverse(layerIds));
  }

  /** The manifest request `_pull` hands to the fetcher. */
  function ManifestRequest(r: ImageRef, endpoint: Endpoint): FetchRequest
  {
    Plain(ManifestUri(r.repository, ManifestReference(r), endpoint))
  }

  /**
   * Everything up to `fetchBlobs` went through: the endpoint was found, the
   * manifest was fetched, read back and parsed, and `fsLayers` and `history`
   * have the same size.
   */
  predicate ManifestAccepted(r: ImageRef, defaultUrl: Url, env: Env)
    requires r.registry.Some? || defaultUrl.HasHost()
  {
    var endpoint := RegistryEndpoint(r, defaultUrl, env.registry);
    && endpoint.Success?
    && env.fetchOk(ManifestRequest(r, endpoint.value))
    && ParsedManifest(env).Success?
    && |ParsedManifest(env).value.fsLayers| == |ParsedManifest(env).value.history|
  }

  /** Every fetch in `requests` succeeds. */
  predicate AllFetched(requests: seq<FetchRequest>, env: Env)
  {
    forall k :: 0 <= k < |requests| ==> env.fetchOk(requests[k])
  }

  /** Every fetch succeeds once the manifest's did exactly when every blob fetch does. */
  lemma AllFetchedAfter(first: FetchRequest, rest: seq<FetchRequest>, env: Env)
    requires env.fetchOk(first)
    ensures forall k :: 0 <= k < |rest| ==> ([first] + rest)[k + 1] == rest[k]
    ensures AllFetched([first] + rest, env) <==> AllFetched(rest, env)
  {
    var all := [first] + rest;
    assert forall k :: 0 <= k < |rest| ==> all[k + 1] == rest[k];
    if AllFetched(rest, env) {
      forall k | 0 <= k < |all|
        ensures env.fetchOk(all[k])
      {
        if k > 0 {
          assert all[k] == rest[k - 1];
        }
      }
    }
  }

  /**
   * What `fetchBlobs` followed by `___pull` does once the manifest is
   * accepted. `blobRequests` are the blob fetches and `order` their blob
   * sums: exactly one fetch per needed blob, with its URI and URL list. A
   * failed fetch fails the pull with that fetch before anything is prepared,
   * extracted or removed. Otherwise `ExtractionOutcome` holds. The result is
   * a success exactly when every fetch, preparation, untar and removal
   * succeeds, and it is then the deduplicated ids parent first.
   */
  ghost predicate BlobStage(r: ImageRef, defaultUrl: Url, manifest: V2Manifest, store: set<string>, env: Env,
                      res: Result<seq<string>, PullError>, blobRequests: seq<FetchRequest>, order: seq<string>,
                      extractions: seq<Layer>, removed: seq<string>)
    requires r.registry.Some? || defaultUrl.HasHost()
    requires RegistryEndpoint(r, defaultUrl, env.registry).Success?
    requires |manifest.fsLayers| == |manifest.history|
  {
    var endpoint := RegistryEndpoint(r, defaultUrl, env.registry).value;
    var layers := Zip(manifest);
    var blobs := NeededBlobs(layers, store);
    var nl := NewLayers(layers, store);
    && |blobRequests| == |order| == |blobs|
    && NoDuplicates(order)
    && (forall b :: b in order <==> b in blobs)
    && (forall k :: 0 <= k < |order| ==>
          blobRequests[k] == BlobRequest(r.repository, endpoint, SchemaTwoUrls(env), order[k]))
    && (!AllFetched(blobRequests, env) ==>
          && extractions == [] && removed == []
          && exists k :: 0 <= k < |blobRequests| && !env.fetchOk(blobRequests[k])
                         && res == Failure(FetchFailed(blobRequests[k].uri)))
    && (AllFetched(blobRequests, env) ==> ExtractionOutcome(nl, blobs, env, res, extractions, removed))
    && (res.Success? <==>
          && AllFetched(blobRequests, env)
          && PreparedCount(nl, env.mkdirOk, env.writeOk) == |nl|
          && (forall e :: e in nl ==> env.untarOk(e))
          && (forall b :: b in blobs ==> env.rmOk(b)))
    && (res.Success? ==>
          && res.value == PulledLayerIds(layers)
          && extractions == nl
          && (forall e :: e in extractions ==> env.untarOk(e))
          && (forall b :: b in removed <==> b in blobs))
  }

  /**
   * The tail of `__pull`: `fetchBlobs` on the accepted manifest, then
   * `___pull` on the blob sums it returns, once every fetch succeeded.
   */
  method FetchAndExtract(r: ImageRef, defaultUrl: Url, manifest: V2Manifest, store: set<string>, env: Env)
    returns (res: Result<seq<string>, PullError>, requests: seq<FetchRequest>, order: seq<string>,
             extractions: seq<Layer>, removed: seq<string>)
    requires r.registry.Some? || defaultUrl.HasHost()
    requires RegistryEndpoint(r, defaultUrl, env.registry).Success?
    requires |manifest.fsLayers| == |manifest.history|
    ensures BlobStage(r, defaultUrl, manifest, store, env, res, requests, order, extractions, removed)
  {
    extractions, removed := [], [];
    var layers := Zip(manifest);
    var blobs;
    blobs, requests, order := FetchBlobs(r, defaultUrl, layers, store, env);
    if blobs.Failure? {
      res := Failure(blobs.error);
      return;
    }
    res, extractions, removed := ExtractLayers(layers, blobs.value, store, env);
    ghost var nl := NewLayers(layers, store);
    if PreparedCount(nl, env.mkdirOk, env.writeOk) == |nl| {
      assert nl[..|nl|] == nl;
    }
  }

  /**
   * `_pull` up to the manifest fetch and `__pull` up to `fetchBlobs`: find
   * the endpoint, fetch the manifest, read it back, parse it and check that
   * `fsLayers` and `history` have the same size, failing at the first step
   * that fails. `requests` holds the manifest fetch, if one was issued.
   */
  method FetchManifest(r: ImageRef, defaultUrl: Url, env: Env)
    returns (res: Result<V2Manifest, PullError>, requests: seq<FetchRequest>)
    requires r.registry.Some? || defaultUrl.HasHost()
    ensures var endpoint := RegistryEndpoint(r, defaultUrl, env.registry);
      && (endpoint.Failure? ==> res == Failure(endpoint.error) && requests == [])
      && (endpoint.Success? ==>
            && requests == [ManifestRequest(r, endpoint.value)]
            && (!env.fetchOk(requests[0]) ==> res == Failure(FetchFailed(requests[0].uri)))
            && (env.fetchOk(requests[0]) && ParsedManifest(env).Failure? ==>
                  res == Failure(ParsedManifest(env).error))
            && (env.fetchOk(requests[0]) && ParsedManifest(env).Success?
                && |ParsedManifest(env).value.fsLayers| != |ParsedManifest(env).value.history| ==>
                  res == Failure(LayerCountMismatch)))
    ensures res.Success? <==> ManifestAccepted(r, defaultUrl, env)
    ensures res.Success? ==> res == ParsedManifest(env)
  {
    requests := [];
    var endpoint := RegistryEndpoint(r, defaultUrl, env.registry);
    if endpoint.Failure? {
      res := Failure(endpoint.error);
      return;
    }
    var manifestRequest := ManifestRequest(r, endpoint.value);
    requests := [manifestRequest];
    if !env.fetchOk(manifestRequest) {
      res := Failure(FetchFailed(manifestRequest.uri));
      return;
    }
    res := ParsedManifest(env);
    if res.Success? && |res.value.fsLayers| != |res.value.history| {
      res := Failure(LayerCountMismatch);
    }
  }

  /**
   * `_pull`, `__pull` and the chain into `fetchBlobs` and `___pull`:
   * normalise the reference, fetch the manifest, read it back and check it,
   * then fetch the blobs and extract the layers. `requests` lists every
   * fetch issued, the manifest first; `order` lists the blob sums in the
   * order their fetches were issued.
   */
  method Pull(ref: ImageRef, defaultUrl: Url, store: set<string>, env: Env)
    returns (res: Result<seq<string>, PullError>, requests: seq<FetchRequest>, order: seq<string>,
             extractions: seq<Layer>, removed: seq<string>)
    requires ref.registry.Some? || defaultUrl.HasHost()
    ensures var r := Normalize(ref, defaultUrl);
            var endpoint := RegistryEndpoint(r, defaultUrl, env.registry);
      && (endpoint.Failure? ==>
            && res == Failure(endpoint.error) && requests == [] && order == []
            && extractions == [] && removed == [])
      && (endpoint.Success? ==>
            && requests != []
            && requests[0] == ManifestRequest(r, endpoint.value)
            && (!env.fetchOk(requests[0]) ==>
                  && res == Failure(FetchFailed(requests[0].uri)) && |requests| == 1
                  && order == [] && extractions == [] && removed == [])
            && (env.fetchOk(requests[0]) && ParsedManifest(env).Failure? ==>
                  && res == Failure(ParsedManifest(env).error) && |requests| == 1
                  && order == [] && extractions == [] && removed == [])
            && (env.fetchOk(requests[0]) && ParsedManifest(env).Success?
                && |ParsedManifest(env).value.fsLayers| != |ParsedManifest(env).value.history| ==>
                  && res == Failure(LayerCountMismatch) && |requests| == 1
                  && order == [] && extractions == [] && removed == []))
    // Once the manifest is accepted, the blob fetches follow the manifest fetch.
    ensures var r := Normalize(ref, defaultUrl);
      ManifestAccepted(r, defaultUrl, env) ==>
        && |requests| >= 1
        && BlobStage(r, defaultUrl, ParsedManifest(env).value, store, env, res, requests[1..], order,
                     extractions, removed)
    // The pull succeeds exactly when every step succeeds.
    ensures var r := Normalize(ref, defaultUrl);
      res.Success? <==>
        && ManifestAccepted(r, defaultUrl, env)
        && AllFetched(requests, env)
        && var layers := Zip(ParsedManifest(env).value);
        && var nl := NewLayers(layers, store);
        && PreparedCount(nl, env.mkdirOk, env.writeOk) == |nl|
        && (forall e :: e in nl ==> env.untarOk(e))
        && (forall b :: b in NeededBlobs(layers, store) ==> env.rmOk(b))
    ensures res.Success? ==>
      && ParsedManifest(env).Success?
      && var m := ParsedManifest(env).value;
      && |m.fsLayers| == |m.history|
      && var layers := Zip(m);
      && res.value == PulledLayerIds(layers)
      && extractions == NewLayers(layers, store)
      && (forall e :: e in extractions ==> env.untarOk(e))
      && (forall b :: b in removed <==> b in NeededBlobs(layers, store))
      && |requests| == 1 + |NeededBlobs(layers, store)|
  {
    extractions, removed := [], [];
    var r := Normalize(ref, defaultUrl);
    var manifest;
    manifest, requests := FetchManifest(r, defaultUrl, env);
    if manifest.Failure? {
      res, order := Failure(manifest.error), [];
      return;
    }
    var manifestRequest := requests[0];
    var blobRequests;
    res, blobRequests, order, extractions, removed := FetchAndExtract(r, defaultUrl, manifest.value, store, env);
    requests := requests + blobRequests;
    AllFetchedAfter(manifestRequest, blobRequests, env);
    assert requests[1..] == blobRequests;
  }
}
