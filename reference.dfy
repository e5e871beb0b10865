/**
 * The pure part of `RegistryPullerProcess::_pull` and `fetchBlobs`: how an
 * image reference is normalised for Docker Hub, which manifest reference is
 * requested, and which registry endpoint the manifest and blob URIs name.
 */
module Reference {
  import opened Wrappers
  import opened DockerSpec

  /** The registry lookups of `spec::` that this model does not interpret. */
  datatype RegistryOps = RegistryOps(
    port: string -> Result<Option<int>, string>,  // spec::getRegistryPort
    scheme: string -> Result<string, string>,     // spec::getRegistryScheme
    host: string -> string)                       // spec::getRegistryHost

  const DockerHubDomain: string := "docker.io"

  /** The directory that holds the official Docker Hub images. */
  const OfficialPrefix: string := "library/"

  predicate HasPrefix(s: string, prefix: string)
  {
    |prefix| <= |s| && s[..|prefix|] == prefix
  }

  /** `strings::contains`: `t` occurs somewhere in `s`. */
  predicate Contains(s: string, t: string)
    decreases |s|
  {
    HasPrefix(s, t) || (|s| > 0 && Contains(s[1..], t))
  }

  lemma {:induction false} ContainsAt(s: string, t: string, i: nat)
    requires i + |t| <= |s| && s[i..i + |t|] == t
    ensures Contains(s, t)
    decreases i
  {
    if i == 0 {
      assert s[..|t|] == t;
    } else {
      assert s[1..][i - 1..i - 1 + |t|] == s[i..i + |t|];
      ContainsAt(s[1..], t, i - 1);
    }
  }

  /** The registry domain `normalize` looks at, if there is one. */
  function RegistryDomain(ref: ImageRef, defaultUrl: Url): Option<string>
  {
    if ref.registry.Some? then ref.registry else defaultUrl.domain
  }

  /** An official image: a one-component repository served from Docker Hub. */
  predicate IsOfficialImage(ref: ImageRef, defaultUrl: Url)
  {
    var domain := RegistryDomain(ref, defaultUrl);
    domain.Some? && Contains(domain.value, DockerHubDomain) && '/' !in ref.repository
  }

  /** `normalize`: put official Docker Hub images under `library/`. */
  function Normalize(ref: ImageRef, defaultUrl: Url): (r: ImageRef)
    ensures r.registry == ref.registry && r.tag == ref.tag && r.digest == ref.digest
    ensures r.repository == ref.repository || r.repository == OfficialPrefix + ref.repository
    ensures r.repository != ref.repository <==> IsOfficialImage(ref, defaultUrl)
  {
    if IsOfficialImage(ref, defaultUrl) then
      ref.(repository := OfficialPrefix + ref.repository)
    else
      ref
  }

  /** After normalisation, every repository served from Docker Hub has a namespace. */
  lemma NormalizedHubRepositoryHasNamespace(ref: ImageRef, defaultUrl: Url)
    requires var domain := RegistryDomain(ref, defaultUrl);
      domain.Some? && Contains(domain.value, DockerHubDomain)
    ensures '/' in Normalize(ref, defaultUrl).repository
  {
    var repository := Normalize(ref, defaultUrl).repository;
    if '/' !in ref.repository {
      assert repository[7] == '/';
    }
  }

  /** `normalize` is idempotent. */
  lemma NormalizeIdempotent(ref: ImageRef, defaultUrl: Url)
    ensures Normalize(Normalize(ref, defaultUrl), defaultUrl) == Normalize(ref, defaultUrl)
  {
    var once := Normalize(ref, defaultUrl);
    if IsOfficialImage(ref, defaultUrl) {
      NormalizedHubRepositoryHasNamespace(ref, defaultUrl);
      assert !IsOfficialImage(once, defaultUrl);
    }
  }

  /** Only the Docker Hub domain triggers the rewrite, whatever the repository. */
  lemma NonHubReferenceUnchanged(ref: ImageRef, defaultUrl: Url)
    requires RegistryDomain(ref, defaultUrl).None?
          || !Contains(RegistryDomain(ref, defaultUrl).value, DockerHubDomain)
    ensures Normalize(ref, defaultUrl) == ref
  {
  }

  /** A registry such as `registry-1.docker.io` counts as Docker Hub. */
  lemma DockerHubRegistryRewritten(ref: ImageRef, defaultUrl: Url)
    requires ref.registry == Some("registry-1.docker.io")
    requires '/' !in ref.repository
    ensures Normalize(ref, defaultUrl).repository == OfficialPrefix + ref.repository
  {
    var domain := ref.registry.value;
    assert domain[11..11 + |DockerHubDomain|] == DockerHubDomain;
    ContainsAt(domain, DockerHubDomain, 11);
  }

  /** The manifest reference requested: the digest, else the tag, else `latest`. */
  function ManifestReference(ref: ImageRef): (r: string)
    ensures ref.digest.Some? ==> r == ref.digest.value
    ensures ref.digest.None? && ref.tag.Some? ==> r == ref.tag.value
    ensures ref.digest.None? && ref.tag.None? ==> r == "latest"
  {
    match ref.digest
    case Some(digest) => digest
    case None => if ref.tag.Some? then ref.tag.value else "latest"
  }

  /**
   * The registry endpoint of the manifest and blob URIs: the reference's own
   * registry (whose port and scheme lookups may fail), or else the default
   * URL with its domain, else its IP address, as host.
   */
  function RegistryEndpoint(ref: ImageRef, defaultUrl: Url, ops: RegistryOps): (r: Result<Endpoint, PullError>)
    requires ref.registry.Some? || defaultUrl.HasHost()
    ensures ref.registry.Some? ==>
      (r.Success? <==> ops.port(ref.registry.value).Success? && ops.scheme(ref.registry.value).Success?)
    ensures ref.registry.Some? && ops.port(ref.registry.value).Failure? ==>
      r == Failure(RegistryPortError(ops.port(ref.registry.value).error))
    ensures ref.registry.Some? && ops.port(ref.registry.value).Success? && ops.scheme(ref.registry.value).Failure? ==>
      r == Failure(RegistrySchemeError(ops.scheme(ref.registry.value).error))
    ensures r.Success? && ref.registry.Some? ==>
      r.value == Endpoint(ops.host(ref.registry.value), ops.scheme(ref.registry.value).value,
                          ops.port(ref.registry.value).value)
    ensures ref.registry.None? ==> r.Success? && r.value.scheme == defaultUrl.scheme
    ensures r.Success? && ref.registry.None? ==>
      r.value.host == (if defaultUrl.domain.Some? then defaultUrl.domain.value else defaultUrl.ip.value)
    ensures r.Success? && ref.registry.None? ==>
      r.value.port == (if defaultUrl.port.Some? then Some(defaultUrl.port.value as int) else None)
  {
    match ref.registry
    case Some(registry) =>
      (match ops.port(registry)
       case Failure(e) => Failure(RegistryPortError(e))
       case Success(port) =>
         (match ops.scheme(registry)
          case Failure(e) => Failure(RegistrySchemeError(e))
          case Success(scheme) => Success(Endpoint(ops.host(registry), scheme, port))))
    case None =>
      var host := if defaultUrl.domain.Some? then defaultUrl.domain.value else defaultUrl.ip.value;
      var port: Option<int> := if defaultUrl.port.Some? then Some(defaultUrl.port.value as int) else None;
      Success(Endpoint(host, defaultUrl.scheme, port))
  }
}
