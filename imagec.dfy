/**
 * The pull client `ImageC`: option defaulting from the parsed reference
 * (`ParseReference`), the scratch directory of a pull (`DestinationDirectory`),
 * the layer list and image configuration of a pull (`LayersToDownload`,
 * `CreateImageConfig`), the repository-cache bindings made after a pull
 * (`UpdateRepositoryCache`) and the phase and error sequencing of `PullImage`.
 *
 * Every network, host and port-layer call of a pull is an input: a
 * `PullOutcomes` value says what each of them returned.
 */
module Imagec {
  import opened Wrappers
  import opened Strings
  import opened Paths
  import opened Docker
  import opened Externals
  import opened LayerGraph
  import opened ImageIdentity

  /** The registry used for references on docker's default hostname. */
  const DefaultDockerURL := "registry-1.docker.io"

  const OAuthError := "Failed to obtain OAuth endpoint: "
  const ManifestError := "Error while pulling image manifest: "
  const NotSchemaOneError := "Error pulling manifest schema 1"
  const ParseReferenceError := "Unable to parse reference: "
  const ParseDigestError := "Unable to parse digest: "

  /** "Error: image <name> not found". */
  function ImageNotFound(name: string): string
  {
    "Error: image " + name + " not found"
  }

  /** "Tag <tag> not found in repository <image>". */
  function TagNotFound(tag: string, image: string): string
  {
    "Tag " + tag + " not found in repository " + image
  }

  /** "ImageID not found by LayerID(<layer>) in RepositoryCache". */
  function ImageIDNotFound(layerID: string): string
  {
    "ImageID not found by LayerID(" + layerID + ") in RepositoryCache"
  }

  /** A schema-2 manifest, kept only to be stored. */
  datatype DeserializedManifest = DeserializedManifest(configDigest: string, layerDigests: seq<string>)

  /**
   * The `Options` of a pull that the modelled code reads or writes. `token` is
   * the fetched OAuth token; `schema1` and `schema2` are the fetched manifests.
   */
  datatype Options = Options(
    reference: string,
    registry: string,
    image: string,
    tag: string,
    destination: string,
    host: string,
    storename: string,
    token: Option<string>,
    schema1: Option<Manifest>,
    schema2: Option<DeserializedManifest>,
    manifestDigest: string)

  /**
   * The options after `ParseReference` succeeds on `ref`: the reference's tag,
   * or "latest" when it has none; docker's registry for the default hostname,
   * and the reference's own hostname otherwise; the remote name as image.
   */
  function ResolvedOptions(o: Options, ref: Named): (r: Options)
    ensures r.tag == (if ref.tag.Some? then ref.tag.value else DefaultTag)
    ensures ref.hostname == DefaultHostname ==> r.registry == DefaultDockerURL
    ensures ref.hostname != DefaultHostname ==> r.registry == ref.hostname
    ensures r.image == ref.remoteName
    ensures r.(tag := o.tag, registry := o.registry, image := o.image) == o
  {
    var tag := if !IsNameOnly(ref) && ref.tag.Some? then ref.tag.value else DefaultTag;
    var registry := if ref.hostname != DefaultHostname then ref.hostname else DefaultDockerURL;
    o.(tag := tag, registry := registry, image := ref.remoteName)
  }

  /**
   * The scratch directory of a pull: destination, registry scheme, registry
   * host, registry path, image and tag, joined in that order. Its components
   * are those of the six segments, in that order.
   */
  function DestinationDirectory(o: Options, lib: Library): (dir: string)
    ensures var u := lib.parseURL(o.registry);
      Components(dir) == ComponentsOfAll([o.destination, u.scheme, u.host, u.path, o.image, o.tag])
  {
    var u := lib.parseURL(o.registry);
    var elems := [o.destination, u.scheme, u.host, u.path, o.image, o.tag];
    ComponentsOfJoin(elems);
    Join(elems)
  }

  /**
   * With a plain scheme, host and tag, the components of the scratch directory
   * are the destination's, the scheme, the host, the registry path's and the
   * image's components, and the tag.
   */
  lemma DirectoryComponents(o: Options, lib: Library)
    requires var u := lib.parseURL(o.registry); Plain(u.scheme) && Plain(u.host) && Plain(o.tag)
    ensures var u := lib.parseURL(o.registry);
      Components(DestinationDirectory(o, lib)) ==
        Components(o.destination) + [u.scheme] + [u.host] + Components(u.path) + Components(o.image) + [o.tag]
  {
    var u := lib.parseURL(o.registry);
    var e := [o.destination, u.scheme, u.host, u.path, o.image, o.tag];
    PlainComponent(u.scheme);
    PlainComponent(u.host);
    PlainComponent(o.tag);
    assert e[5..][1..] == [] && e[5..][0] == o.tag;
    assert ComponentsOfAll(e[5..]) == [o.tag];
    assert e[4..][1..] == e[5..] && e[4..][0] == o.image;
    assert e[3..][1..] == e[4..] && e[3..][0] == u.path;
    assert e[2..][1..] == e[3..] && e[2..][0] == u.host;
    assert e[1..][1..] == e[2..] && e[1..][0] == u.scheme;
    var c4 := Components(o.image) + [o.tag];
    assert ComponentsOfAll(e[4..]) == c4;
    var c3 := Components(u.path) + c4;
    assert ComponentsOfAll(e[3..]) == c3;
    var c2 := [u.host] + c3;
    assert ComponentsOfAll(e[2..]) == c2;
    var c1 := [u.scheme] + c2;
    assert ComponentsOfAll(e[1..]) == c1;
    assert ComponentsOfAll(e) == Components(o.destination) + c1;
  }

  /** Component lists of the scratch-directory shape agree exactly when their parts do. */
  lemma SegmentsCancel(d: seq<string>, s: string, h: string, x: seq<string>, t: string,
                       s': string, h': string, x': seq<string>, t': string)
    ensures d + [s] + [h] + x + [t] == d + [s'] + [h'] + x' + [t'] <==> s == s' && h == h' && x == x' && t == t'
  {
    var l, r := d + [s] + [h] + x + [t], d + [s'] + [h'] + x' + [t'];
    if l == r {
      assert |x| == |x'|;
      assert l[|d|] == s && r[|d|] == s';
      assert l[|d| + 1] == h && r[|d| + 1] == h';
      assert l[|l| - 1] == t && r[|r| - 1] == t';
      assert l[|d| + 2..|l| - 1] == x && r[|d| + 2..|r| - 1] == x';
    }
  }

  /**
   * Two pulls into the same destination get the same scratch directory (up to
   * cleaning) exactly when scheme, host and tag agree and the registry path
   * followed by the image has the same components; equal directories imply
   * the same. The boundary between registry path and image is not kept.
   */
  lemma DestinationDirectoriesDistinct(a: Options, b: Options, lib: Library)
    requires Components(a.destination) == Components(b.destination)
    requires var u := lib.parseURL(a.registry); Plain(u.scheme) && Plain(u.host) && Plain(a.tag)
    requires var u := lib.parseURL(b.registry); Plain(u.scheme) && Plain(u.host) && Plain(b.tag)
    ensures var ua, ub := lib.parseURL(a.registry), lib.parseURL(b.registry);
      Components(DestinationDirectory(a, lib)) == Components(DestinationDirectory(b, lib)) <==>
        && ua.scheme == ub.scheme && ua.host == ub.host && a.tag == b.tag
        && Components(ua.path) + Components(a.image) == Components(ub.path) + Components(b.image)
    ensures var ua, ub := lib.parseURL(a.registry), lib.parseURL(b.registry);
      DestinationDirectory(a, lib) == DestinationDirectory(b, lib) ==>
        && ua.scheme == ub.scheme && ua.host == ub.host && a.tag == b.tag
        && Components(ua.path) + Components(a.image) == Components(ub.path) + Components(b.image)
  {
    var ua, ub := lib.parseURL(a.registry), lib.parseURL(b.registry);
    DirectoryComponents(a, lib);
    DirectoryComponents(b, lib);
    var xa, xb := Components(ua.path) + Components(a.image), Components(ub.path) + Components(b.image);
    assert Components(DestinationDirectory(a, lib)) == Components(a.destination) + [ua.scheme] + [ua.host] + xa + [a.tag];
    assert Components(DestinationDirectory(b, lib)) == Components(a.destination) + [ub.scheme] + [ub.host] + xb + [b.tag];
    SegmentsCancel(Components(a.destination), ua.scheme, ua.host, xa, a.tag, ub.scheme, ub.host, xb, b.tag);
  }

  /**
   * A registry whose path ends in a repository namespace and a registry on the
   * same scheme and host without it give one scratch directory to two
   * different images: the image in that namespace and the namespaced image.
   * For instance, registry path "/v2/library" with image "busybox" and
   * registry path "/v2" with image "library/busybox".
   */
  lemma RegistryPathAndImageShareDirectory(a: Options, b: Options, lib: Library,
                                           scheme: string, host: string, path: string, namespace: string, name: string)
    requires scheme != "" && namespace != ""
    requires lib.parseURL(a.registry) == URL(scheme, host, path + "/" + namespace) && a.image == name
    requires lib.parseURL(b.registry) == URL(scheme, host, path) && b.image == namespace + "/" + name
    requires a.destination == b.destination && a.tag == b.tag
    ensures a.registry != b.registry && a.image != b.image
    ensures DestinationDirectory(a, lib) == DestinationDirectory(b, lib)
  {
    var t := a.tag;
    var ea := [a.destination, scheme, host, path + "/" + namespace, name, t];
    var eb := [a.destination, scheme, host, path, namespace + "/" + name, t];
    assert ea[5..] == [t] && eb[5..] == [t];
    assert ea[4..][1..] == ea[5..] && eb[4..][1..] == eb[5..];
    assert JoinWith(ea[4..], "/") == name + "/" + t;
    assert JoinWith(eb[4..], "/") == namespace + "/" + name + "/" + t;
    assert ea[3..][1..] == ea[4..] && eb[3..][1..] == eb[4..];
    assert JoinWith(ea[3..], "/") == path + "/" + namespace + "/" + (name + "/" + t);
    assert JoinWith(eb[3..], "/") == path + "/" + (namespace + "/" + name + "/" + t);
    assert JoinWith(ea[3..], "/") == JoinWith(eb[3..], "/");
    assert ea[2..][1..] == ea[3..] && eb[2..][1..] == eb[3..];
    assert ea[1..][1..] == ea[2..] && eb[1..][1..] == eb[2..];
    assert JoinWith(ea[1..], "/") == JoinWith(eb[1..], "/");
    if a.destination == "" {
      assert Join(ea) == Join(ea[1..]) && Join(eb) == Join(eb[1..]);
    }
    assert Join(ea) == Join(eb);
    assert DestinationDirectory(a, lib) == Join(ea);
    assert DestinationDirectory(b, lib) == Join(eb);
    assert |a.image| < |b.image|;
    assert |(path + "/" + namespace)| != |path|;
  }

  // ---------------------------------------------------------------------
  // Repository cache

  /** What `updateRepositoryCache` reads and writes: the pull's image ID and both cache maps. */
  datatype CacheState = CacheState(imageID: string, references: map<string, string>, layerImages: map<string, string>)

  datatype CacheUpdate = CacheUpdate(err: Option<string>, state: CacheState)

  /** A successful `AddReference`: the reference text and the layer ID are bound to `imageID`. */
  function Bind(s: CacheState, ref: Named, imageID: string, layerID: string): CacheState
  {
    s.(references := s.references[ref.text := imageID], layerImages := s.layerImages[layerID := imageID])
  }

  /**
   * What `updateRepositoryCache` does, given the outcome of the tag binding and
   * of the digest binding (`None` for success).
   */
  function RepositoryUpdate(s: CacheState, layerID: string, reference: string, manifestDigest: string,
                            lib: Library, tagOutcome: Option<string>, digestOutcome: Option<string>): CacheUpdate
  {
    match lib.parseNamed(reference)
    case Err(e) => CacheUpdate(Some(ParseReferenceError + e), s)
    case Ok(ref) =>
      var id := if s.imageID == "" then LookupImageID(s.layerImages, layerID) else s.imageID;
      var s1 := s.(imageID := id);
      if id == "" then CacheUpdate(Some(ImageIDNotFound(layerID)), s1)
      else if tagOutcome.Some? then
        CacheUpdate(Some("Unable to Add Image Reference(" + ref.text + "): " + tagOutcome.value), s1)
      else
        var s2 := Bind(s1, ref, id, layerID);
        match lib.parseNamed(ref.name + "@" + manifestDigest)
        case Err(e) => CacheUpdate(Some(ParseDigestError + e), s2)
        case Ok(dig) =>
          if digestOutcome.Some? then
            CacheUpdate(Some("Unable to Add Image Digest(" + dig.text + "): " + digestOutcome.value), s2)
          else CacheUpdate(None, Bind(s2, dig, id, layerID))
  }

  /**
   * Without an image ID of its own and without one for its top layer in the
   * repository cache, the update fails before binding anything.
   */
  lemma MissingImageIDBindsNothing(s: CacheState, layerID: string, reference: string, manifestDigest: string,
                                   lib: Library, tagOutcome: Option<string>, digestOutcome: Option<string>)
    requires lib.parseNamed(reference).Ok?
    requires s.imageID == "" && LookupImageID(s.layerImages, layerID) == ""
    ensures var u := RepositoryUpdate(s, layerID, reference, manifestDigest, lib, tagOutcome, digestOutcome);
      u.err == Some(ImageIDNotFound(layerID)) && u.state == s
  {
  }

  /**
   * The update succeeds exactly when an image ID is known and both bindings
   * succeed, and then the tag reference and the digest reference both name
   * that image: the pull's own ID, or else the one cached for its top layer.
   */
  lemma UpdateBindsTagAndDigest(s: CacheState, layerID: string, reference: string, manifestDigest: string,
                                lib: Library, tagOutcome: Option<string>, digestOutcome: Option<string>)
    requires lib.parseNamed(reference).Ok?
    requires lib.parseNamed(lib.parseNamed(reference).value.name + "@" + manifestDigest).Ok?
    ensures var u := RepositoryUpdate(s, layerID, reference, manifestDigest, lib, tagOutcome, digestOutcome);
      var id := if s.imageID != "" then s.imageID else LookupImageID(s.layerImages, layerID);
      && (u.err.None? <==> id != "" && tagOutcome.None? && digestOutcome.None?)
      && (u.err.None? ==>
            var ref, dig := lib.parseNamed(reference).value, lib.parseNamed(lib.parseNamed(reference).value.name + "@" + manifestDigest).value;
            && u.state.imageID == id
            && ref.text in u.state.references && u.state.references[ref.text] == id
            && dig.text in u.state.references && u.state.references[dig.text] == id
            && LookupImageID(u.state.layerImages, layerID) == id)
  {
  }

  /** A failed tag binding ends the update: the digest is neither parsed nor bound. */
  lemma TagFailureSkipsDigest(s: CacheState, layerID: string, reference: string, manifestDigest: string,
                              lib: Library, tagOutcome: Option<string>, digestOutcome: Option<string>,
                              otherDigest: string, otherOutcome: Option<string>)
    requires tagOutcome.Some?
    ensures var u := RepositoryUpdate(s, layerID, reference, manifestDigest, lib, tagOutcome, digestOutcome);
      && u.err.Some?
      && u.state.references == s.references && u.state.layerImages == s.layerImages
      && u == RepositoryUpdate(s, layerID, reference, otherDigest, lib, tagOutcome, otherOutcome)
  {
  }

  /** A failed digest binding leaves the tag binding that preceded it in place. */
  lemma DigestFailureKeepsTag(s: CacheState, layerID: string, reference: string, manifestDigest: string,
                              lib: Library, digestOutcome: Option<string>)
    requires lib.parseNamed(reference).Ok?
    requires s.imageID != "" || LookupImageID(s.layerImages, layerID) != ""
    requires lib.parseNamed(lib.parseNamed(reference).value.name + "@" + manifestDigest).Err? || digestOutcome.Some?
    ensures var u := RepositoryUpdate(s, layerID, reference, manifestDigest, lib, None, digestOutcome);
      var id := if s.imageID != "" then s.imageID else LookupImageID(s.layerImages, layerID);
      && u.err.Some?
      && u.state.references == s.references[lib.parseNamed(reference).value.text := id]
  {
  }

  /**
   * The docker persona's repository cache, as far as the pull uses it:
   * reference texts and layer IDs, each bound to an image ID.
   */
  class RepositoryCache {
    var references: map<string, string>
    var layerImages: map<string, string>

    constructor(references: map<string, string>, layerImages: map<string, string>)
      ensures this.references == references && this.layerImages == layerImages
    {
      this.references := references;
      this.layerImages := layerImages;
    }

    /** `GetImageID`: the image bound to a layer, or "". */
    function GetImageID(layerID: string): (id: string)
      reads this
      ensures layerID in layerImages ==> id == layerImages[layerID]
      ensures layerID !in layerImages ==> id == ""
    {
      LookupImageID(layerImages, layerID)
    }

    /**
     * `AddReference(ref, imageID, true, layerID, true)`, whose outcome (the
     * error text, or `None`) is an input: on success the reference and the
     * layer are bound to the image; on failure nothing changes.
     */
    method AddReference(ref: Named, imageID: string, layerID: string, outcome: Option<string>) returns (err: Option<string>)
      modifies this
      ensures err == outcome
      ensures var s := Bind(CacheState("", old(references), old(layerImages)), ref, imageID, layerID);
        outcome.None? ==> references == s.references && layerImages == s.layerImages
      ensures outcome.Some? ==> references == old(references) && layerImages == old(layerImages)
    {
      err := outcome;
      if outcome.None? {
        references := references[ref.text := imageID];
        layerImages := layerImages[layerID := imageID];
      }
    }
  }

  // ---------------------------------------------------------------------
  // Pull phases

  /** The failures of the fetcher, each with its error text. */
  datatype FetchError = ImageNotFoundError(text: string) | TagNotFoundError(text: string) | OtherError(text: string)

  datatype AnyManifest = SchemaOne(one: Manifest) | SchemaTwo(two: DeserializedManifest) | UnknownSchema
  datatype Fetched = Fetched(manifest: AnyManifest, digest: string)

  /** What each external call of `PullImage` returns, in call order. */
  datatype PullOutcomes = PullOutcomes(
    /** `sys.UUID`. */
    hostUUID: Result<string, string>,
    /** `PingPortLayer`: whether it answered, and its error. */
    pingOk: bool,
    pingError: Option<string>,
    /** `LearnRegistryURL`: the registry URL and its error. */
    registryURL: string,
    registryError: Option<string>,
    /** `LearnAuthURL`: an OAuth endpoint, none, or a failure. */
    authURL: Result<Option<string>, FetchError>,
    /** `FetchToken`, called only when there is an endpoint. */
    token: Result<string, string>,
    /** `FetchImageManifest` for schema 1 and for schema 2. */
    schema1: Result<Fetched, FetchError>,
    schema2: Result<Fetched, FetchError>,
    /** `DownloadLayers`: its error, or `None`. */
    download: Option<string>)

  /** A fetched schema-1 manifest has one history entry per layer. */
  predicate ManifestAligned(net: PullOutcomes)
  {
    net.schema1.Ok? && net.schema1.value.manifest.SchemaOne? ==>
      |net.schema1.value.manifest.one.history| == |net.schema1.value.manifest.one.fsLayers|
  }

  /** The options reached so far, and whether the pull goes on or stops with an error. */
  datatype Phase = Next(o: Options) | Stop(err: Option<string>, o: Options)

  /** The steps of `PullImage` up to and including the OAuth token. */
  function SetupPhase(o: Options, lib: Library, net: PullOutcomes): Phase
  {
    match lib.parseNamed(o.reference)
    case Err(e) => Stop(Some(e), o)
    case Ok(ref) =>
      var o1 := ResolvedOptions(o, ref);
      match net.hostUUID
      case Err(e) => Stop(Some(e), o1)
      case Ok(host) =>
        var o2 := o1.(storename := host);
        if net.pingError.Some? || !net.pingOk then Stop(net.pingError, o2)
        else
          var o3 := o2.(registry := net.registryURL);
          if net.registryError.Some? then Stop(net.registryError, o3)
          else
            match net.authURL
            case Err(ImageNotFoundError(_)) => Stop(Some(ImageNotFound(o3.reference)), o3)
            case Err(e) => Stop(Some(OAuthError + e.text), o3)
            case Ok(None) => Next(o3)
            case Ok(Some(_)) =>
              match net.token
              case Err(e) => Stop(Some(e), o3)
              case Ok(t) => Next(o3.(token := Some(t)))
  }

  /**
   * The manifest steps of `PullImage`: schema 1 is required, schema 2 is best
   * effort. Going on means a schema-1 manifest was fetched and stored.
   */
  function ManifestPhase(o: Options, net: PullOutcomes): (r: Phase)
    ensures r.Next? ==>
      net.schema1.Ok? && net.schema1.value.manifest.SchemaOne? && r.o.schema1 == Some(net.schema1.value.manifest.one)
  {
    match net.schema1
    case Err(ImageNotFoundError(_)) => Stop(Some(ImageNotFound(o.image)), o)
    case Err(TagNotFoundError(_)) => Stop(Some(TagNotFound(o.tag, o.image)), o)
    case Err(OtherError(t)) => Stop(Some(ManifestError + t), o)
    case Ok(f) =>
      if !f.manifest.SchemaOne? then Stop(Some(NotSchemaOneError), o)
      else
        var o1 := o.(schema1 := Some(f.manifest.one), manifestDigest := f.digest);
        if net.schema2.Ok? && net.schema2.value.manifest.SchemaTwo? then
          Next(o1.(schema2 := Some(net.schema2.value.manifest.two), manifestDigest := net.schema2.value.digest))
        else Next(o1)
  }

  datatype PullResult = PullResult(err: Option<string>, options: Options, layers: seq<ImageWithMeta>)

  /** What `PullImage` returns and leaves in the options and the layer list. */
  function Pull(o: Options, layers: seq<ImageWithMeta>, lib: Library, net: PullOutcomes,
                layerCache: map<string, ImageWithMeta>): PullResult
    requires ManifestAligned(net)
  {
    match SetupPhase(o, lib, net)
    case Stop(e, o1) => PullResult(e, o1, layers)
    case Next(o1) =>
      match ManifestPhase(o1, net)
      case Stop(e, o2) => PullResult(e, o2, layers)
      case Next(o2) =>
        match LayerList(o2.schema1.value, o2.storename, layerCache, lib.unmarshalV1)
        case Err(e) => PullResult(Some(e), o2, layers)
        case Ok(list) => PullResult(net.download, o2, list)
  }

  /**
   * Once the setup steps pass, the options carry the resolved tag, registry
   * host and image, the host UUID as store name, the learned registry URL
   * and the token when an OAuth endpoint was found.
   */
  lemma SetupPhaseResolves(o: Options, lib: Library, net: PullOutcomes)
    requires SetupPhase(o, lib, net).Next?
    ensures lib.parseNamed(o.reference).Ok? && net.hostUUID.Ok? && net.authURL.Ok?
    ensures var o1, ref := SetupPhase(o, lib, net).o, lib.parseNamed(o.reference).value;
      o1 == o.(tag := if ref.tag.Some? then ref.tag.value else DefaultTag,
               image := ref.remoteName,
               storename := net.hostUUID.value,
               registry := net.registryURL,
               token := if net.authURL.value.Some? then Some(net.token.value) else o.token)
  {
  }

  /**
   * An OAuth-endpoint failure reports a missing image by its reference and
   * anything else as an endpoint failure.
   */
  lemma AuthFailures(o: Options, layers: seq<ImageWithMeta>, lib: Library, net: PullOutcomes,
                     layerCache: map<string, ImageWithMeta>)
    requires ManifestAligned(net)
    requires lib.parseNamed(o.reference).Ok? && net.hostUUID.Ok?
    requires net.pingOk && net.pingError.None? && net.registryError.None?
    requires net.authURL.Err?
    ensures var p := Pull(o, layers, lib, net, layerCache);
      && (net.authURL.error.ImageNotFoundError? ==> p.err == Some(ImageNotFound(o.reference)))
      && (!net.authURL.error.ImageNotFoundError? ==> p.err == Some(OAuthError + net.authURL.error.text))
      && p.layers == layers && p.options.schema1 == o.schema1
  {
  }

  /**
   * A failed schema-1 fetch is reported by kind: a missing image by the
   * image name, a missing tag by tag and image, anything else with the
   * fetcher's text; a manifest of another schema is refused. The manifest,
   * the digest and the layers are then left as they were.
   */
  lemma ManifestFailures(o: Options, layers: seq<ImageWithMeta>, lib: Library, net: PullOutcomes,
                         layerCache: map<string, ImageWithMeta>)
    requires ManifestAligned(net)
    requires SetupPhase(o, lib, net).Next?
    ensures var o1, p := SetupPhase(o, lib, net).o, Pull(o, layers, lib, net, layerCache);
      && (net.schema1.Err? && net.schema1.error.ImageNotFoundError? ==> p.err == Some(ImageNotFound(o1.image)))
      && (net.schema1.Err? && net.schema1.error.TagNotFoundError? ==> p.err == Some(TagNotFound(o1.tag, o1.image)))
      && (net.schema1.Err? && net.schema1.error.OtherError? ==> p.err == Some(ManifestError + net.schema1.error.text))
      && (net.schema1.Ok? && !net.schema1.value.manifest.SchemaOne? ==> p.err == Some(NotSchemaOneError))
      && (net.schema1.Err? || !net.schema1.value.manifest.SchemaOne? ==> p.options == o1 && p.layers == layers)
  {
  }

  /**
   * Once a schema-1 manifest is in, the schema-2 fetch only decides the stored
   * schema-2 manifest and the digest: a schema-2 manifest overrides the
   * schema-1 digest, anything else keeps it, and no schema-2 outcome changes
   * the error or the layers of the pull.
   */
  lemma SchemaTwoIsBestEffort(o: Options, layers: seq<ImageWithMeta>, lib: Library, net: PullOutcomes,
                              layerCache: map<string, ImageWithMeta>, other: Result<Fetched, FetchError>)
    requires ManifestAligned(net)
    requires SetupPhase(o, lib, net).Next?
    requires net.schema1.Ok? && net.schema1.value.manifest.SchemaOne?
    ensures var o1, p := SetupPhase(o, lib, net).o, Pull(o, layers, lib, net, layerCache);
      && p.options.schema1 == Some(net.schema1.value.manifest.one)
      && (net.schema2.Ok? && net.schema2.value.manifest.SchemaTwo? ==>
            p.options.manifestDigest == net.schema2.value.digest
            && p.options.schema2 == Some(net.schema2.value.manifest.two))
      && (!(net.schema2.Ok? && net.schema2.value.manifest.SchemaTwo?) ==>
            p.options.manifestDigest == net.schema1.value.digest && p.options.schema2 == o1.schema2)
    ensures var q := Pull(o, layers, lib, net.(schema2 := other), layerCache);
      && q.err == Pull(o, layers, lib, net, layerCache).err
      && q.layers == Pull(o, layers, lib, net, layerCache).layers
  {
    assert SetupPhase(o, lib, net.(schema2 := other)) == SetupPhase(o, lib, net);
  }

  /**
   * A pull reports no error exactly when every step succeeds, or when the
   * port layer does not answer the ping without giving an error; in the
   * first case the layer list is the manifest's.
   */
  lemma PullSucceeds(o: Options, layers: seq<ImageWithMeta>, lib: Library, net: PullOutcomes,
                     layerCache: map<string, ImageWithMeta>)
    requires ManifestAligned(net)
    ensures var p := Pull(o, layers, lib, net, layerCache);
      p.err.None? <==>
        || (lib.parseNamed(o.reference).Ok? && net.hostUUID.Ok? && !net.pingOk && net.pingError.None?)
        || (&& SetupPhase(o, lib, net).Next?
            && net.schema1.Ok? && net.schema1.value.manifest.SchemaOne?
            && LayerList(net.schema1.value.manifest.one, net.hostUUID.value, layerCache, lib.unmarshalV1).Ok?
            && net.download.None?)
    ensures var p := Pull(o, layers, lib, net, layerCache);
      SetupPhase(o, lib, net).Next? && net.schema1.Ok? && net.schema1.value.manifest.SchemaOne? &&
      LayerList(net.schema1.value.manifest.one, net.hostUUID.value, layerCache, lib.unmarshalV1).Ok? ==>
        p.layers == LayerList(net.schema1.value.manifest.one, net.hostUUID.value, layerCache, lib.unmarshalV1).value
        && p.err == net.download
  {
    if SetupPhase(o, lib, net).Next? {
      SetupPhaseResolves(o, lib, net);
    }
  }

  // ---------------------------------------------------------------------
  // The client

  class ImageC {
    var options: Options
    /** The layers of the pulled image, topmost first. */
    var imageLayers: seq<ImageWithMeta>
    /** The image ID, once known. */
    var imageID: string

    constructor(options: Options)
      ensures this.options == options && imageLayers == [] && imageID == ""
    {
      this.options := options;
      imageLayers := [];
      imageID := "";
    }

    /** Parses the reference and fills in tag, registry and image; on failure nothing changes. */
    method ParseReference(lib: Library) returns (err: Option<string>)
      modifies this
      ensures old(lib.parseNamed(options.reference)).Err? ==>
        err == Some(old(lib.parseNamed(options.reference)).error) && options == old(options)
      ensures old(lib.parseNamed(options.reference)).Ok? ==>
        err.None? && options == ResolvedOptions(old(options), old(lib.parseNamed(options.reference)).value)
      ensures imageLayers == old(imageLayers) && imageID == old(imageID)
    {
      var parsed := lib.parseNamed(options.reference);
      if parsed.Err? {
        return Some(parsed.error);
      }
      var ref := parsed.value;
      options := options.(tag := DefaultTag);
      if !IsNameOnly(ref) && ref.tag.Some? {
        options := options.(tag := ref.tag.value);
      }
      options := options.(registry := DefaultDockerURL);
      if ref.hostname != DefaultHostname {
        options := options.(registry := ref.hostname);
      }
      options := options.(image := ref.remoteName);
      return None;
    }

    /**
     * The layer list of the schema-1 manifest, built oldest layer first into
     * a slot per manifest layer, each decode overlaid onto the previous one.
     */
    method LayersToDownload(layerCache: map<string, ImageWithMeta>, lib: Library)
      returns (r: Result<seq<ImageWithMeta>, string>)
      requires options.schema1.Some?
      requires |options.schema1.value.history| == |options.schema1.value.fsLayers|
      ensures r == LayerList(options.schema1.value, options.storename, layerCache, lib.unmarshalV1)
    {
      var manifest, store, decode := options.schema1.value, options.storename, lib.unmarshalV1;
      var metas := HistoryMetas(manifest);
      var n := |manifest.fsLayers|;
      var images := new ImageWithMeta[n];
      var v1 := EmptyV1;
      var i := |manifest.history|;
      while i > 0
        invariant 0 <= i <= n
        invariant StateAt(metas, i, decode) == Ok(v1)
        invariant BuiltFrom(manifest, store, layerCache, decode, images[..], i)
      {
        i := i - 1;
        var history := manifest.history[i];
        var layer := manifest.fsLayers[i];
        var decoded := decode(history.v1Compatibility);
        if decoded.Err? {
          StateAtErrReachesTop(metas, i, decode);
          return Err(HistoryDecodeError + decoded.error);
        }
        v1 := Overlay(v1, decoded.value);
        assert StateAt(metas, i, decode) == Ok(v1);
        var parent := Scratch;
        if v1.parent != "" {
          parent := v1.parent;
        }
        var built := ImageWithMeta(v1.id, parent, store, "", layer, history.v1Compatibility, 0, false);
        assert built == FreshRecord(v1, store, history, layer);
        if built.id in layerCache && !layerCache[built.id].downloading {
          built := layerCache[built.id];
        }
        assert built == BuiltAt(manifest, store, layerCache, decode, i);
        BuiltFromStep(manifest, store, layerCache, decode, images[..], i + 1);
        images[i] := built;
      }
      BuiltFromAll(manifest, store, layerCache, decode, images[..]);
      return Ok(images[..]);
    }

    /**
     * The image configuration of the layer chain `images`, topmost first: the
     * cached one when there is one, and otherwise the one folded from the
     * layers, oldest first.
     */
    method CreateImageConfig(images: seq<ImageWithMeta>, repo: RepositoryCache,
                             imageCache: map<string, ImageConfig>, lib: Library)
      returns (r: Result<ImageConfig, string>)
      requires |images| > 0
      requires options.schema1.Some? || LookupImageID(repo.layerImages, images[0].id) in imageCache
      ensures r == ImageConfigOf(images, options.schema1, options.tag, options.manifestDigest, options.reference,
                                 repo.layerImages, imageCache, lib)
    {
      var imageLayer := images[0];
      var id := repo.GetImageID(imageLayer.id);
      if id in imageCache {
        return Ok(imageCache[id]);
      }
      var decode := lib.unmarshalV1;
      var metas := LayerMetas(images);
      var image := EmptyV1;
      var diffIDs: seq<string> := [];
      var history: seq<History> := [];
      var size := 0;
      var i := |images|;
      while i > 0
        invariant 0 <= i <= |images|
        invariant StateAt(metas, i, decode) == Ok(image)
        invariant history == HistoryFrom(images, i, decode)
        invariant diffIDs == DiffIDsFrom(images, i)
        invariant size == SizeFrom(images, i)
      {
        i := i - 1;
        var layer := images[i];
        var decoded := decode(layer.meta);
        if decoded.Err? {
          StateAtErrReachesTop(metas, i, decode);
          return Err(LayerDecodeError + decoded.error);
        }
        image := Overlay(image, decoded.value);
        var h := History(image.created, image.author, CommandLine(image.containerConfig), image.comment, false);
        if layer.diffID == EmptyTarDigest {
          h := h.(emptyLayer := true);
        } else {
          diffIDs := diffIDs + [layer.diffID];
        }
        history := history + [h];
        size := size + layer.size;
      }
      var v1 := V1Image("", "", image.comment, image.created, image.container, image.containerConfig,
                        image.dockerVersion, image.author, image.config, image.architecture, image.os, 0);
      var result := DockerImage(v1, RootFS(LayersRootFS, diffIDs), history);
      var bytes := lib.marshalImage(result);
      if bytes.Err? {
        return Err(MarshalError + bytes.error);
      }
      var sum := lib.sha256Hex(bytes.value);
      v1 := v1.(parent := image.parent, size := size, id := imageLayer.id);
      return Ok(ImageConfig(v1, sum, [options.manifestDigest], [options.tag], options.schema1.value.name,
                            map[], history, options.reference));
    }

    /** Pulls the image; every external call's result is taken from `net`. */
    method PullImage(lib: Library, net: PullOutcomes, layerCache: map<string, ImageWithMeta>)
      returns (err: Option<string>)
      requires ManifestAligned(net)
      modifies this
      ensures var p := Pull(old(options), old(imageLayers), lib, net, layerCache);
        err == p.err && options == p.options && imageLayers == p.layers
      ensures imageID == old(imageID)
    {
      err := ParseReference(lib);
      if err.Some? {
        return;
      }
      if net.hostUUID.Err? {
        return Some(net.hostUUID.error);
      }
      options := options.(storename := net.hostUUID.value);
      if net.pingError.Some? || !net.pingOk {
        return net.pingError;
      }
      options := options.(registry := net.registryURL);
      if net.registryError.Some? {
        return net.registryError;
      }
      if net.authURL.Err? {
        if net.authURL.error.ImageNotFoundError? {
          return Some(ImageNotFound(options.reference));
        }
        return Some(OAuthError + net.authURL.error.text);
      }
      if net.authURL.value.Some? {
        if net.token.Err? {
          return Some(net.token.error);
        }
        options := options.(token := Some(net.token.value));
      }
      if net.schema1.Err? {
        match net.schema1.error
        case ImageNotFoundError(_) => return Some(ImageNotFound(options.image));
        case TagNotFoundError(_) => return Some(TagNotFound(options.tag, options.image));
        case OtherError(t) => return Some(ManifestError + t);
      }
      var fetched := net.schema1.value;
      if !fetched.manifest.SchemaOne? {
        return Some(NotSchemaOneError);
      }
      options := options.(schema1 := Some(fetched.manifest.one), manifestDigest := fetched.digest);
      if net.schema2.Ok? && net.schema2.value.manifest.SchemaTwo? {
        options := options.(schema2 := Some(net.schema2.value.manifest.two), manifestDigest := net.schema2.value.digest);
      }
      var layers := LayersToDownload(layerCache, lib);
      if layers.Err? {
        return Some(layers.error);
      }
      imageLayers := layers.value;
      return net.download;
    }
  }

  /**
   * Binds the pull's tag reference and digest reference to its image ID in
   * the repository cache, given the outcome of each binding.
   */
  method UpdateRepositoryCache(ic: ImageC, repo: RepositoryCache, lib: Library,
                               tagOutcome: Option<string>, digestOutcome: Option<string>)
    returns (err: Option<string>)
    requires |ic.imageLayers| > 0
    modifies ic, repo
    ensures var u := RepositoryUpdate(CacheState(old(ic.imageID), old(repo.references), old(repo.layerImages)),
                                      old(ic.imageLayers[0].id), old(ic.options.reference),
                                      old(ic.options.manifestDigest), lib, tagOutcome, digestOutcome);
      && err == u.err
      && ic.imageID == u.state.imageID
      && repo.references == u.state.references
      && repo.layerImages == u.state.layerImages
    ensures ic.options == old(ic.options) && ic.imageLayers == old(ic.imageLayers)
  {
    var imageLayerID := ic.imageLayers[0].id;
    var parsed := lib.parseNamed(ic.options.reference);
    if parsed.Err? {
      return Some(ParseReferenceError + parsed.error);
    }
    var ref := parsed.value;
    if ic.imageID == "" {
      ic.imageID := repo.GetImageID(imageLayerID);
      if ic.imageID == "" {
        return Some(ImageIDNotFound(imageLayerID));
      }
    }
    var e := repo.AddReference(ref, ic.imageID, imageLayerID, tagOutcome);
    if e.Some? {
      return Some("Unable to Add Image Reference(" + ref.text + "): " + e.value);
    }
    var parsedDigest := lib.parseNamed(ref.name + "@" + ic.options.manifestDigest);
    if parsedDigest.Err? {
      return Some(ParseDigestError + parsedDigest.error);
    }
    var dig := parsedDigest.value;
    e := repo.AddReference(dig, ic.imageID, imageLayerID, digestOutcome);
    if e.Some? {
      return Some("Unable to Add Image Digest(" + dig.text + "): " + e.value);
    }
    return None;
  }
}
