/**
 * The parts of docker's `image` and `reference` packages that the pull
 * bookkeeping reads and writes: the legacy per-layer configuration
 * (`V1Image`), the image configuration that is hashed (`DockerImage` with its
 * `RootFS` and `History`), and a parsed reference (`Named`).
 *
 * `json.Unmarshal` into an existing struct only overwrites the fields present
 * in the JSON text. A decoded per-layer document is therefore modelled as a
 * `V1Document` that says, per field, whether the text had it, and `Overlay`
 * applies it onto the previously decoded record. Inside a `container.Config`,
 * an object decoded onto a non-nil map or struct pointer (`Labels`,
 * `Volumes`, `ExposedPorts`, `Healthcheck`) is merged into it entry by entry,
 * and a JSON null clears a map, slice or pointer but leaves a scalar alone.
 */
module Docker {
  import opened Wrappers
  import opened Strings

  /** `reference.DefaultTag`. */
  const DefaultTag := "latest"
  /** `reference.DefaultHostname`. */
  const DefaultHostname := "docker.io"
  /** `layer.DigestSHA256EmptyTar`: the diff ID of a layer whose tar holds nothing. */
  const EmptyTarDigest := "sha256:a3ed95caeb02ffe68cdd9fd84406680ae93d633cb16422d00e8a7c22955b46d4"
  /** `RootFS.Type` as `image.NewRootFS` sets it. */
  const LayersRootFS := "layers"

  /**
   * The value of a `container.Config` setting other than `Cmd`: the JSON text
   * of a scalar (`User`, `Tty`, ...), the JSON text of a slice or of a pointer
   * to a scalar (`Env`, `StopTimeout`, ...), or the entries of a map or of the
   * struct behind a pointer (`Labels`, `Healthcheck`, ...), each as JSON text.
   */
  datatype Setting = Scalar(text: string) | Array(text: string) | Object(entries: map<string, string>)

  /** The part of `container.Config` that matters here: `Cmd`, and every other setting by JSON key. */
  datatype ContainerConfig = ContainerConfig(cmd: seq<string>, settings: map<string, Setting>)

  const EmptyContainerConfig := ContainerConfig([], map[])

  /** `image.V1Image`. `Created` is kept as its text; `config` is the `*container.Config` pointer. */
  datatype V1Image = V1Image(
    id: string,
    parent: string,
    comment: string,
    created: string,
    container: string,
    containerConfig: ContainerConfig,
    dockerVersion: string,
    author: string,
    config: Option<ContainerConfig>,
    architecture: string,
    os: string,
    size: int)

  /** The zero value `docker.V1Image{}`. */
  const EmptyV1 := V1Image("", "", "", "", "", EmptyContainerConfig, "", "", None, "", "", 0)

  /** A setting as the decoded text has it: a value, or an explicit JSON null. */
  datatype SettingDocument = Value(value: Setting) | Null

  /** A decoded JSON object for a `container.Config`: no entry for a key the text does not have. */
  datatype ConfigDocument = ConfigDocument(cmd: Option<seq<string>>, settings: map<string, SettingDocument>)

  /**
   * A decoded per-layer JSON document: `None` for a key the text does not have.
   * `config` is `Some(None)` for an explicit JSON null, which resets the pointer.
   */
  datatype V1Document = V1Document(
    id: Option<string>,
    parent: Option<string>,
    comment: Option<string>,
    created: Option<string>,
    container: Option<string>,
    containerConfig: Option<ConfigDocument>,
    dockerVersion: Option<string>,
    author: Option<string>,
    config: Option<Option<ConfigDocument>>,
    architecture: Option<string>,
    os: Option<string>,
    size: Option<int>)

  /**
   * Decoding one setting onto its current value (`None` for a zero or nil
   * one): an object is merged into an object already there, any other value
   * replaces it, and a null clears everything but a scalar.
   */
  function OverlaySetting(prev: Option<Setting>, doc: SettingDocument): Option<Setting>
  {
    match doc
    case Null => if prev.Some? && prev.value.Scalar? then prev else None
    case Value(Object(entries)) =>
      if prev.Some? && prev.value.Object? then Some(Object(prev.value.entries + entries)) else Some(Object(entries))
    case Value(v) => Some(v)
  }

  /** The current value of setting `key`, `None` when it is zero or nil. */
  function SettingOf(settings: map<string, Setting>, key: string): Option<Setting>
  {
    if key in settings then Some(settings[key]) else None
  }

  /** Decoding the settings of a `container.Config` object onto the current ones, key by key. */
  function OverlaySettings(prev: map<string, Setting>, doc: map<string, SettingDocument>): (r: map<string, Setting>)
    ensures forall key ::
      SettingOf(r, key) == (if key in doc then OverlaySetting(SettingOf(prev, key), doc[key]) else SettingOf(prev, key))
  {
    map key | key in prev.Keys + doc.Keys && (key in doc ==> OverlaySetting(SettingOf(prev, key), doc[key]).Some?) ::
      if key in doc then OverlaySetting(SettingOf(prev, key), doc[key]).value else prev[key]
  }

  /** Decoding a `container.Config` object into an existing value. */
  function OverlayConfig(prev: ContainerConfig, doc: ConfigDocument): ContainerConfig
  {
    ContainerConfig(GetOr(doc.cmd, prev.cmd), OverlaySettings(prev.settings, doc.settings))
  }

  /**
   * Map-valued settings accumulate over the layers: an object decoded onto an
   * object keeps every older entry it does not name and adds or replaces the
   * ones it names; a setting the text lacks is kept.
   */
  lemma ObjectSettingsMerge(prev: ContainerConfig, doc: ConfigDocument, key: string)
    ensures var r := OverlayConfig(prev, doc).settings;
      && (key !in doc.settings ==> SettingOf(r, key) == SettingOf(prev.settings, key))
      && (key in doc.settings && doc.settings[key].Value? && doc.settings[key].value.Object? ==>
            key in r && r[key].Object?
            && (forall e :: e in doc.settings[key].value.entries ==>
                  e in r[key].entries && r[key].entries[e] == doc.settings[key].value.entries[e])
            && (key in prev.settings && prev.settings[key].Object? ==>
                  forall e :: e in prev.settings[key].entries && e !in doc.settings[key].value.entries ==>
                    e in r[key].entries && r[key].entries[e] == prev.settings[key].entries[e]))
  {
    var r := OverlayConfig(prev, doc).settings;
    assert SettingOf(r, key) == (if key in doc.settings then OverlaySetting(SettingOf(prev.settings, key), doc.settings[key])
                                 else SettingOf(prev.settings, key));
  }

  /** Decoding into a `*container.Config`: null clears it, an object decodes into the pointee. */
  function OverlayConfigPointer(prev: Option<ContainerConfig>, doc: Option<Option<ConfigDocument>>): Option<ContainerConfig>
  {
    match doc
    case None => prev
    case Some(None) => None
    case Some(Some(c)) => Some(OverlayConfig(GetOr(prev, EmptyContainerConfig), c))
  }

  /** `json.Unmarshal(text, &prev)` for a text that decodes to `doc`. */
  function Overlay(prev: V1Image, doc: V1Document): V1Image
  {
    V1Image(
      GetOr(doc.id, prev.id),
      GetOr(doc.parent, prev.parent),
      GetOr(doc.comment, prev.comment),
      GetOr(doc.created, prev.created),
      GetOr(doc.container, prev.container),
      match doc.containerConfig
        case None => prev.containerConfig
        case Some(c) => OverlayConfig(prev.containerConfig, c),
      GetOr(doc.dockerVersion, prev.dockerVersion),
      GetOr(doc.author, prev.author),
      OverlayConfigPointer(prev.config, doc.config),
      GetOr(doc.architecture, prev.architecture),
      GetOr(doc.os, prev.os),
      GetOr(doc.size, prev.size))
  }

  /** `image.History`. */
  datatype History = History(created: string, author: string, createdBy: string, comment: string, emptyLayer: bool)

  /** `image.RootFS`. */
  datatype RootFS = RootFS(fsType: string, diffIDs: seq<string>)

  /** `image.Image`: the configuration document whose serialisation is hashed into the image ID. */
  datatype DockerImage = DockerImage(v1: V1Image, rootFS: RootFS, history: seq<History>)

  /** The command line shown in a history entry: `strings.Join(Cmd, " ")`. */
  function CommandLine(c: ContainerConfig): string
  {
    JoinWith(c.cmd, " ")
  }

  /**
   * A parsed `reference.Named`: `text` is `String()`, `name` is `Name()`,
   * `hostname` and `remoteName` are `Hostname()` and `RemoteName()`, `tag` is
   * present for a `NamedTagged` and `digest` for a canonical reference.
   */
  datatype Named = Named(
    text: string,
    name: string,
    hostname: string,
    remoteName: string,
    tag: Option<string>,
    digest: Option<string>)

  /** `reference.IsNameOnly`: neither tagged nor digested. */
  predicate IsNameOnly(ref: Named)
  {
    ref.tag.None? && ref.digest.None?
  }
}
