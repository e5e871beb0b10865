/**
 * The values the registry puller works on: image references, the default
 * registry URL, the two manifest schemas, the docker URIs handed to the
 * fetcher, and the ways a pull can fail.
 */
module DockerSpec {
  import opened Wrappers

  /** `spec::ImageReference`: optional registry, repository, optional tag and digest. */
  datatype ImageRef = ImageRef(
    registry: Option<string>,
    repository: string,
    tag: Option<string>,
    digest: Option<string>)

  /**
   * `http::URL` of the default registry (`--docker_registry`). A parsed URL
   * names its host either by domain or by IP address.
   */
  datatype Url = Url(
    scheme: string,
    domain: Option<string>,
    ip: Option<string>,
    port: Option<nat>)
  {
    predicate HasHost()
    {
      domain.Some? || ip.Some?
    }
  }

  /** Where the registry is reached: host, scheme and optional port. */
  datatype Endpoint = Endpoint(host: string, scheme: string, port: Option<int>)

  /** `uri::docker::manifest` and `uri::docker::blob`. */
  datatype DockerUri =
    | ManifestUri(repository: string, reference: string, endpoint: Endpoint)
    | BlobUri(repository: string, digest: string, endpoint: Endpoint)

  /**
   * One call of the fetcher: the plain `fetch(uri, directory)` or the
   * overload that also receives the schema 2 URL list of the blob.
   */
  datatype FetchRequest =
    | Plain(uri: DockerUri)
    | WithUrls(uri: DockerUri, urls: seq<string>)

  /**
   * A schema 1 (`spec::v2`) manifest: the blob sum of each `fsLayers` entry
   * and the v1 layer id of each `history` entry, child first.
   */
  datatype V2Manifest = V2Manifest(fsLayers: seq<string>, history: seq<string>)

  /** One layer of a schema 1 manifest once `fsLayers` and `history` are paired. */
  datatype Layer = Layer(blobSum: string, id: string)

  /** One `layers` entry of a schema 2 (`spec::v2_2`) manifest. */
  datatype S2Layer = S2Layer(digest: string, urls: seq<string>)

  datatype S2Manifest = S2Manifest(layers: seq<S2Layer>)

  /** The failures a pull reports. */
  datatype PullError =
    | RegistryPortError(reason: string)
    | RegistrySchemeError(reason: string)
    | FetchFailed(uri: DockerUri)
    | ManifestReadError(reason: string)
    | ManifestParseError(reason: string)
    | LayerCountMismatch
    | RootfsMkdirFailed(layerId: string)
    | LayerManifestWriteFailed(layerId: string)
    | UntarFailed(blobSum: string, layerId: string)
    | TarballRemoveFailed(blobSum: string)
}
