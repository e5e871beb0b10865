# Docker registry puller and Windows long paths, in Dafny

This project models two pieces of the Mesos agent.

The first is the Docker registry puller of the Mesos containerizer's provisioner
(`RegistryPullerProcess`). It turns an image reference into a list of layer ids:
1. It normalises the reference for Docker Hub.
2. It fetches the image manifest and checks that `fsLayers` and `history` have the same length.
3. It fetches each blob whose layer is not yet in the layer store, optionally with the URL lists of the schema 2 manifest.
4. It prepares and extracts each new layer, then removes the fetched tarballs.
5. It returns the distinct layer ids, parent first.

The second is stout's Windows long-path normalisation. It prefixes a wide path with the
marker `\\?\` when the path is at least 248 characters long, absolute and not
already marked.

Modules:
- `Wrappers` (wrappers.dfy): `Option` and `Result`.
- `LongPath` (longpath.dfy): `longpath_internal` in all four overloads, `longpath` and `max_path_length`, as functions with their lemmas.
- `DockerSpec` (docker_spec.dfy): image references, the default registry URL, both manifest schemas, docker URIs, fetch requests and pull errors.
- `Reference` (reference.dfy): `normalize`, and the choice of manifest reference and registry endpoint.
- `Layers` (layers.dfy): specification functions over the manifest layers and their lemmas. These cover the blobs to fetch, the deduplicated layer ids, the layers to extract and the schema 2 URL map.
- `RegistryPuller` (registry_puller.dfy): the loops of `fetchBlobs` and `___pull` as methods with loop invariants, proved against the `Layers` functions. The `_pull`/`__pull` chain is three methods: `FetchManifest` up to the size check, `FetchAndExtract` for `fetchBlobs` and `___pull`, and `Pull`, which composes them.

The outside world is a parameter:
- A function parameter of `Env` decides whether each fetch, file read, manifest parse, `mkdir`, `write`, `untar` and `rm` succeeds.
- `getRegistryPort`, `getRegistryScheme` and `getRegistryHost` are the function fields of `RegistryOps`.
- The layer store is the set of layer ids already present.
- In `LongPath`, `path::absolute` is a predicate parameter. `wide_stringify` and `stringify` are conversion parameters.

The loops over a hashset (`blobSums`) pick their next element with `:|`. The model
therefore fixes no iteration order. Every postcondition holds for all orders, and
the chosen order is returned as `order` or `removed`. `collect` over futures succeeds
when every future succeeds, and otherwise fails with the failure of one failed future.

Two facts about the puller shape the model:
- The pull is driven by the schema 1 (`spec::v2`) manifest. The schema 2 (`spec::v2_2`) manifest only supplies URL lists for blob fetches. When it cannot be read or parsed, the blobs are fetched without URL lists.
- The puller checks no blob digest against the blob's content.

## Model

| member | source | states |
|---|---|---|
| LongPath.LongPathInternal | 3rdparty/stout/include/stout/internal/windows/longpath.hpp:40-49 | the result is the path or the marker followed by the path; a long absolute path always comes out marked |
| LongPath.LongPathInternalMoved | 3rdparty/stout/include/stout/internal/windows/longpath.hpp:52-61 | the rvalue overload returns the same value as the const-reference overload for every input |
| LongPath.LongPathInternalNarrow | 3rdparty/stout/include/stout/internal/windows/longpath.hpp:64-73 | a narrow path gives exactly the wide normalisation of its widened form, and that result is a fixpoint of the wide normalisation |
| LongPath.LongPathOf | 3rdparty/stout/include/stout/internal/windows/longpath.hpp:75-78 | `longpath` is the narrow normalisation of the stringified argument, so it equals the wide normalisation of its widened form, and the result is a fixpoint |
| LongPath.ShortPathUnchanged | 3rdparty/stout/include/stout/internal/windows/longpath.hpp:42-48 | a path shorter than 248 characters is returned unchanged |
| LongPath.MarkedPathUnchanged | 3rdparty/stout/include/stout/internal/windows/longpath.hpp:43-47 | a path that already starts with the marker is returned unchanged |
| LongPath.RelativePathUnchanged | 3rdparty/stout/include/stout/internal/windows/longpath.hpp:44-47 | a path that is not absolute is returned unchanged |
| LongPath.LongAbsolutePathMarked | 3rdparty/stout/include/stout/internal/windows/longpath.hpp:42-45 | a long, unmarked, absolute path becomes exactly marker followed by path |
| LongPath.InputIsSuffix | 3rdparty/stout/include/stout/internal/windows/longpath.hpp:45-47 | the input is a suffix of the result, whose length is the input's or the input's plus the marker's |
| LongPath.LongPathIdempotent | 3rdparty/stout/include/stout/internal/windows/longpath.hpp:31-36 | normalising twice gives the same as normalising once |
| LongPath.PrefixAddedIff | 3rdparty/stout/include/stout/internal/windows/longpath.hpp:31-45 | the result differs from the input exactly when the path is long, unmarked and absolute |
| Reference.Normalize | src/slave/containerizer/mesos/provisioner/docker/registry_puller.cpp:185-217 | registry, tag and digest are kept; the repository becomes `library/` + repository exactly when the effective registry domain contains `docker.io` and the repository has no `/`, and is unchanged otherwise |
| Reference.NormalizeIdempotent | src/slave/containerizer/mesos/provisioner/docker/registry_puller.cpp:189-216 | normalising twice equals normalising once |
| Reference.NormalizedHubRepositoryHasNamespace | src/slave/containerizer/mesos/provisioner/docker/registry_puller.cpp:208-214 | after normalisation every repository served from a `docker.io` domain contains a `/` |
| Reference.NonHubReferenceUnchanged | src/slave/containerizer/mesos/provisioner/docker/registry_puller.cpp:192-210 | with no registry domain, or one without `docker.io` (for example a default URL given by IP), the reference is unchanged |
| Reference.DockerHubRegistryRewritten | src/slave/containerizer/mesos/provisioner/docker/registry_puller.cpp:194-214 | an explicit registry `registry-1.docker.io` with a one-component repository gets the `library/` prefix |
| Reference.ManifestReference | src/slave/containerizer/mesos/provisioner/docker/registry_puller.cpp:260-264 | the manifest reference is the digest if present, else the tag if present, else `latest` |
| Reference.RegistryEndpoint | src/slave/containerizer/mesos/provisioner/docker/registry_puller.cpp:249-285 | with a registry in the reference: fails exactly when the port or scheme lookup fails, with the port error if the port lookup fails and otherwise with the scheme error; else host, scheme and port come from the lookups; without one: succeeds with the default URL's scheme, its domain or else its IP as host, and its port |
| Layers.Zip | src/slave/containerizer/mesos/provisioner/docker/registry_puller.cpp:376-379 | layer i pairs `fsLayers(i).blobSum` with `history(i)`'s v1 id |
| Layers.DedupMembers | src/slave/containerizer/mesos/provisioner/docker/registry_puller.cpp:381-389 | the deduplicated ids are exactly the ids of the manifest |
| Layers.DedupDistinct | src/slave/containerizer/mesos/provisioner/docker/registry_puller.cpp:356-389 | the deduplicated ids have no duplicates |
| Layers.DedupOrder | src/slave/containerizer/mesos/provisioner/docker/registry_puller.cpp:376-389 | deduplication keeps the order of first occurrences |
| Layers.Reverse | src/slave/containerizer/mesos/provisioner/docker/registry_puller.cpp:469 | element i of the reversed list is element n-1-i of the list |
| Layers.PulledLayerIdsProperties | src/slave/containerizer/mesos/provisioner/docker/registry_puller.cpp:371-389 | the returned ids have no duplicates, include every v1 id of the manifest, stored or not, and run in reverse order of first occurrence (parent first) |
| Layers.NeededBlobsMembers | src/slave/containerizer/mesos/provisioner/docker/registry_puller.cpp:481-504 | a blob sum is to be fetched exactly when some layer with that blob sum has a v1 id not in the store |
| Layers.NewLayersMembers | src/slave/containerizer/mesos/provisioner/docker/registry_puller.cpp:381-395 | a layer is extracted exactly when it is the first layer with its v1 id and that id is not in the store |
| Layers.NewLayersDistinct | src/slave/containerizer/mesos/provisioner/docker/registry_puller.cpp:381-389 | no two extracted layers share a v1 id |
| Layers.ExtractedBlobsWereFetched | src/slave/containerizer/mesos/provisioner/docker/registry_puller.cpp:391-398 | the tarball of every extracted layer is among the blobs fetchBlobs fetched |
| Layers.PreparedCount | src/slave/containerizer/mesos/provisioner/docker/registry_puller.cpp:405-418 | the number of new layers prepared is the length of the longest prefix whose mkdir and layer-manifest write both succeed |
| Layers.UrlsForSingle | src/slave/containerizer/mesos/provisioner/docker/registry_puller.cpp:527-535 | a digest listed by one schema 2 layer maps to exactly that layer's URLs |
| RegistryPuller.BlobRequestUsesUrlsIff | src/slave/containerizer/mesos/provisioner/docker/registry_puller.cpp:588-600 | a blob is fetched with a URL list exactly when the schema 2 manifest was read and parsed and lists its digest; the list is that digest's URLs; otherwise the plain fetch is used |
| RegistryPuller.BuildUrlMap | src/slave/containerizer/mesos/provisioner/docker/registry_puller.cpp:527-535 | the map holds every schema 2 digest, each mapped to the URLs of all layers with that digest, concatenated in layer order (`emplace` never replaces) |
| RegistryPuller.CollectBlobSums | src/slave/containerizer/mesos/provisioner/docker/registry_puller.cpp:485-504 | the collected set is the set of blobs to fetch: blob sums of layers not in the store, each once |
| RegistryPuller.ReadSchemaTwoUrls | src/slave/containerizer/mesos/provisioner/docker/registry_puller.cpp:506-544 | schema 2 URL lists are used exactly when the file was read and parsed; a failure of either gives an empty map and no error |
| RegistryPuller.IssueBlobFetches | src/slave/containerizer/mesos/provisioner/docker/registry_puller.cpp:546-601 | one fetch per blob sum, no blob twice, with the right URI and URL list; a port or scheme failure fails before any fetch and only when there is a blob |
| RegistryPuller.FetchBlobs | src/slave/containerizer/mesos/provisioner/docker/registry_puller.cpp:474-605 | exactly one fetch per distinct blob sum of the layers not in the store; succeeds exactly when every fetch does and then returns that set; a schema 2 failure never fails it |
| RegistryPuller.RemoveTarballs | src/slave/containerizer/mesos/provisioner/docker/registry_puller.cpp:456-467 | succeeds exactly when every tarball can be removed and then has removed them all; otherwise fails with a failing tarball of the set, having removed only removable ones |
| RegistryPuller.ExtractLayers | src/slave/containerizer/mesos/provisioner/docker/registry_puller.cpp:335-471 | extractions are the new layers up to the first mkdir/write failure, which fails the pull with that layer; then any untar failure fails it before removal; otherwise it succeeds exactly when all tarballs are removed, returning the deduplicated ids parent first |
| RegistryPuller.FetchManifest | src/slave/containerizer/mesos/provisioner/docker/registry_puller.cpp:246-322 | a port or scheme failure fails before any fetch; otherwise the manifest of the normalised reference is fetched, and a failed fetch, read or parse fails with that step's error, and a size mismatch fails with the size error; it succeeds exactly when every step succeeds, and then returns the parsed manifest |
| RegistryPuller.FetchAndExtract | src/slave/containerizer/mesos/provisioner/docker/registry_puller.cpp:324-331 | after an accepted manifest: one fetch per needed blob, each with its URI and URL list; a failed fetch fails with that fetch, and nothing is extracted or removed; otherwise the extractions are the prepared prefix of the new layers; a mkdir or write failure fails with that layer's error; an untar failure fails with a failing layer; in both cases nothing is removed; a removal failure fails with an unremovable fetched blob; success exactly when every fetch, preparation, untar and removal succeeds |
| RegistryPuller.Pull | src/slave/containerizer/mesos/provisioner/docker/registry_puller.cpp:240-332 | the manifest of the normalised reference is fetched first; an endpoint, fetch, read or parse failure stops the pull with that error, a size mismatch with the size error, and each has no blob fetch, no extraction and no removal; after an accepted manifest the blob fetches follow, with the behaviour of `FetchAndExtract`; the pull succeeds exactly when every step succeeds, and then returns the deduplicated ids parent first, having removed every fetched tarball |

## Left out

- The actor and future machinery is not modelled: `spawn`, `dispatch`, `defer`, `terminate`/`wait`, the `RegistryPuller` constructor and destructor, and the forwarding `pull`. The chained futures become one sequential method.
- Secret resolution in `RegistryPullerProcess::pull` is an asynchronous call into a resolver not shown here. The resolved config is only passed through to the fetcher, so it is left out.
- `RegistryPuller::create` is left out: it only parses the default registry URL with `http::URL::parse`, which is not part of this model. The model takes the parsed URL, which names a host by domain or IP.
- The Windows branch of `___pull` is left out: it chains `wclayer_import` futures over external commands.
- File-system and command calls are left out as I/O. These are `os::read`, `os::exists`, `os::mkdir`, `os::write`, `os::rm`, `command::untar` and the JSON layer manifest. They are success or failure verdicts of `Env`, and the store is a set of layer ids. Paths built with `path::join` and `paths::` are replaced by the blob sum or the layer id they name. The `backend` argument only selects those paths.
- `spec::v2::parse`, `spec::v2_2::parse`, `spec::getRegistryPort`, `spec::getRegistryScheme`, `spec::getRegistryHost`, `uri::docker::manifest` and `uri::docker::blob` are not part of this model. They are parameters or plain constructors.
- `CHECK(manifest.history(i).has_v1())` is left out: a layer here always carries its v1 id.
- `path::join("library", repository)` is modelled as `"library/" + repository`. This join only happens when the repository has no `/`, so nothing is stripped.
- Logging (`VLOG`) is left out.
- In `longpath.hpp`, `path::absolute`, `wide_stringify` and `stringify` are not part of this model and are parameters. `os::W_LONGPATH_PREFIX` is the constant `\\?\` from the comment on `longpath_internal`. The UTF-16 encoding itself is not modelled. A wide path is a sequence of characters, so the 248 threshold counts characters, not the UTF-16 code units that `std::wstring::size` counts. An absolute path of 247 characters that includes one character outside the Basic Multilingual Plane is 248 units long: `longpath_internal` marks it, and the model does not.
- ExtractedBlobsWereFetched: the model uses one layer store for both store checks. `fetchBlobs` checks the store at registry_puller.cpp:493-495. `___pull` checks it again at registry_puller.cpp:392-394, after every blob fetch has finished. The model therefore assumes no layer leaves the store between the two checks, and this lemma depends on that. A layer removed in between would be extracted from a tarball that was never fetched.
- FetchBlobs: when several fetches fail, `collect` reports whichever fails first in time. The model reports some failing fetch, with no timing order.
- ExtractLayers: when several extractions fail, the model likewise reports some failing extraction. The extractions already scheduled when a mkdir or write fails keep running in the source; the model only records that they were scheduled.
