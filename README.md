# imagec: the bookkeeping of a docker image pull

`imagec` is the image-pull client of vSphere Integrated Containers. Between its
network fetches it does some plain bookkeeping, and this project models that
bookkeeping in Dafny and proves what it promises:

- **Options.** It parses the image reference and fills in the tag, the
  registry and the image name, using docker's defaults.
- **Scratch directory.** It works out the directory a pull downloads into.
- **Layer list.** It turns the schema-1 manifest into the list of layers to
  download. Each layer's history document is decoded onto the one decoded
  before it, and cached layer records are reused.
- **Image configuration.** It folds the layer chain, oldest to newest, into the
  image configuration: one history entry per layer, the non-empty diff IDs,
  and the total size. It hashes the serialised configuration into the image
  ID, and returns the cached configuration when there is one.
- **Repository cache.** It binds the pulled `repo:tag` and `repo@digest`
  references to the image in the repository cache.
- **Pull sequencing.** It orders the steps of a pull and turns each step's
  failure into a fixed error message. The schema-2 manifest fetch is best
  effort.

The modules follow the structure of `lib/imagec/imagec.go`:

| module | file | contents |
|---|---|---|
| `Wrappers` | `wrappers.dfy` | `Option`, `Result` |
| `Strings` | `strings.dfy` | `strings.Join` |
| `Paths` | `paths.dfy` | `path.Join` without cleaning, and the slash-separated components of a path |
| `Docker` | `docker.dfy` | docker's `V1Image`, `History`, `RootFS`, `Image` and parsed references. `json.Unmarshal` into an existing value is an overlay (`Overlay`) of the fields the text has onto the previous value |
| `Externals` | `externals.dfy` | the library calls the code makes (reference and URL parsing, JSON decoding and encoding, SHA-256). They are function values supplied by the caller and assume nothing about them |
| `LayerGraph` | `layer_graph.dfy` | the schema-1 manifest, `ImageWithMeta`, the oldest-first decode (`StateAt`) and the layer list it yields (`LayerList`) |
| `ImageIdentity` | `image_identity.dfy` | `metadata.ImageConfig` and the configuration computed from a layer chain (`ImageConfigOf`) |
| `Imagec` | `imagec.dfy` | `Options`, the `RepositoryCache` and `ImageC` classes, the three loop-and-assignment methods, `UpdateRepositoryCache`, and the pull phases (`SetupPhase`, `ManifestPhase`, `Pull`) |

The imperative parts of the source are kept imperative:

- `ImageC.LayersToDownload` fills a preallocated array, from the last index
  down.
- `ImageC.CreateImageConfig` runs the same descending loop, appending to the
  history and diff-ID lists and adding up the size.
- `ImageC.ParseReference`, `ImageC.PullImage` and `UpdateRepositoryCache`
  assign the client's fields step by step.

Each method is proved equal to a specification function on its inputs
(`LayerList`, `ImageConfigOf`, `ResolvedOptions`, `Pull`, `RepositoryUpdate`).
The source's promises are proved as lemmas about those functions.

The results of the external calls are inputs: a `PullOutcomes` value for the
calls `PullImage` makes, and an outcome argument per `AddReference` call.

The scratch directory nests the registry path and the image name as
directories, so the boundary between the two is not kept: a registry path
ending in a repository namespace and the same registry without it give the
same directory to an image and to the namespaced image
(`RegistryPathAndImageShareDirectory`).

`PullImage` is modelled as written where the port-layer ping answers "not ok"
without an error. The pull then stops and reports no error (`PullSucceeds`
states this case explicitly).

## Model

| member | source | states |
|---|---|---|
| `Imagec.ResolvedOptions` | lib/imagec/imagec.go:169-181 | the tag is the reference's tag, or "latest" when it has none; the registry is `registry-1.docker.io` for the `docker.io` hostname and the reference's hostname otherwise; the image is the remote name; no other option changes |
| `Imagec.ImageC.ParseReference` | lib/imagec/imagec.go:161-184 | a reference that does not parse returns the parser's error and changes nothing; otherwise the options become `ResolvedOptions` of the parsed reference |
| `Imagec.DestinationDirectory` | lib/imagec/imagec.go:187-222 | the directory's path components are those of destination, URL scheme, URL host, URL path, image and tag, in that order |
| `Imagec.DirectoryComponents` | lib/imagec/imagec.go:187-221 | with a plain scheme, host and tag, the directory's components are the destination's, the scheme, the host, the registry path's and the image's, and the tag |
| `Imagec.DestinationDirectoriesDistinct` | lib/imagec/imagec.go:187-221 | two pulls into the same destination, with plain schemes, hosts and tags, get directories with the same components exactly when scheme, host and tag agree and the registry path followed by the image has the same components; equal directories imply the same |
| `Imagec.RegistryPathAndImageShareDirectory` | lib/imagec/imagec.go:187-221 | a registry path ending in a namespace with image `name`, and the same registry without the namespace with image `namespace/name`, are different registries and images that get the same directory |
| `Paths.ComponentsOfJoin` | lib/imagec/imagec.go:214-221 | joining keeps every element's components, in order, and adds none |
| `Paths.JoinOfPlainSegments` | lib/imagec/imagec.go:214-221 | a path joined from plain segments splits back into exactly those segments |
| `Imagec.ImageC.LayersToDownload` | lib/imagec/imagec.go:225-267 | the descending loop over the preallocated slots returns exactly `LayerList` of the manifest, the store name and the layer cache |
| `LayerGraph.LayerListFailsIffUndecodable` | lib/imagec/imagec.go:231-239 | the list is refused exactly when some history entry fails to decode; the error is "Failed to unmarshall image history: " followed by the decoding error of the oldest such entry |
| `LayerGraph.LayerListRecords` | lib/imagec/imagec.go:226-264 | a successful list has one record per manifest layer. A cached record for the layer ID that is not mid-download is taken as it is; otherwise the record carries the decoded ID, the decoded parent or "scratch" when that is empty, the store name, `History[i].V1Compatibility`, `FSLayers[i]`, no diff ID, size 0 and not downloading |
| `LayerGraph.StateAtOkIff` | lib/imagec/imagec.go:232-239 | decoding from index `i` down to the oldest entry succeeds exactly when every entry from `i` on decodes |
| `LayerGraph.StateAtErrIsOldestFailure` | lib/imagec/imagec.go:232-239 | a failed decode reports the error of the oldest entry that does not decode, and every older entry decodes |
| `LayerGraph.StateAtErrReachesTop` | lib/imagec/imagec.go:232-239 | once decoding fails at one index, the whole walk fails with that error |
| `LayerGraph.StateAtOkBelowTop` | lib/imagec/imagec.go:232-239 | a walk that succeeds succeeded at every index |
| `LayerGraph.StateAtOverlays` | lib/imagec/imagec.go:229-237 | decoding entry `i` keeps the ID and parent from older entries when entry `i` lacks those keys, and replaces them when it has them |
| `LayerGraph.LayerListIs` | lib/imagec/imagec.go:226-266 | a list with the right record in every slot is the layer list |
| `LayerGraph.BuiltFromStep` | lib/imagec/imagec.go:247-262 | filling slot `i - 1` with its record extends the filled suffix by one |
| `LayerGraph.BuiltFromAll` | lib/imagec/imagec.go:264-266 | once every slot is filled, the slots are the layer list |
| `Docker.ObjectSettingsMerge` | lib/imagec/imagec.go:381 | decoding a layer document onto the configuration keeps a setting the document lacks; an object setting keeps every older entry the document does not name and takes the ones it names |
| `Imagec.ImageC.CreateImageConfig` | lib/imagec/imagec.go:360-446 | the cache check, the descending fold and the assembly return exactly `ImageConfigOf` of the chain, the options and both caches |
| `ImageIdentity.CachedConfigReturned` | lib/imagec/imagec.go:364-369 | when the image cache holds the image the repository cache maps the top layer to, that configuration is returned unchanged |
| `ImageIdentity.ComputedConfigFails` | lib/imagec/imagec.go:378-422 | a configuration that is not cached is refused exactly when some layer document does not decode or the document does not serialise; the error is "Failed to unmarshall layer history: " with the oldest undecodable layer's error, or else "Failed to marshall image metadata: " with the serialisation error |
| `ImageIdentity.ComputedHistory` | lib/imagec/imagec.go:378-400 | a computed configuration has one history entry per layer, oldest first. An entry is marked empty exactly when its layer's diff ID is the empty-tar digest. The root filesystem holds no empty-tar diff ID, and its length plus the number of empty entries is the number of layers |
| `ImageIdentity.ComputedFields` | lib/imagec/imagec.go:402-443 | the size is the sum of the layer sizes; the ID is the top layer's; the parent is the decoded parent; tags, digests, name and reference come from the options and an empty diff-ID map. The image ID is the hash of the serialised `ImageDocument`, whose ID, parent and size are empty |
| `ImageIdentity.HistoryFromShape` | lib/imagec/imagec.go:378-398 | history entry `|images| - 1 - j` is built from layer `j`'s decoded record and diff ID |
| `ImageIdentity.DiffIDsAreTheNonEmptyLayers` | lib/imagec/imagec.go:390-396 | the root filesystem lists no empty-tar diff ID and lists every other layer's diff ID |
| `ImageIdentity.DiffIDsPartitionLayers` | lib/imagec/imagec.go:390-397 | every layer either contributes one diff ID or one empty history entry |
| `ImageIdentity.SizeFromIsTotal` | lib/imagec/imagec.go:399 | the accumulated size is the sum of all layer sizes |
| `ImageIdentity.ImageIDIgnoresBookkeeping` | lib/imagec/imagec.go:402-426 | two chains with the same layer documents and diff IDs get the same image ID and history, or fail alike, whatever their layer IDs, parents, stores, blobs, sizes and download flags |
| `ImageIdentity.SameContentSameHistory` | lib/imagec/imagec.go:378-398 | the history and diff-ID lists depend only on the layer documents and diff IDs |
| `ImageIdentity.EmptyCountAppend` | lib/imagec/imagec.go:397 | appending a history entry adds one to the empty count exactly when it is marked empty |
| `Imagec.RepositoryCache.GetImageID` | lib/imagec/imagec.go:290 | a bound layer gives the image it is bound to; an unbound layer gives "" |
| `Imagec.RepositoryCache.AddReference` | lib/imagec/imagec.go:297 | a successful binding maps the reference text and the layer to the image; a failed one changes nothing |
| `Imagec.UpdateRepositoryCache` | lib/imagec/imagec.go:272-313 | the returned error, the client's image ID and both cache maps are exactly those of `RepositoryUpdate`; the options and layers are unchanged |
| `Imagec.MissingImageIDBindsNothing` | lib/imagec/imagec.go:285-294 | without its own image ID and without one for the top layer, the update fails with "ImageID not found by LayerID(...) in RepositoryCache" and binds nothing |
| `Imagec.UpdateBindsTagAndDigest` | lib/imagec/imagec.go:285-312 | the update succeeds exactly when an image ID is known and both bindings succeed. Then `repo:tag` and `repo@digest` both map to that image, which is the pull's own ID or else the one cached for the top layer |
| `Imagec.TagFailureSkipsDigest` | lib/imagec/imagec.go:296-300 | a failed tag binding returns an error with both maps unchanged, whatever the digest and the digest binding's outcome |
| `Imagec.DigestFailureKeepsTag` | lib/imagec/imagec.go:302-310 | when the digest does not parse or its binding fails, the tag binding made before is kept |
| `Imagec.ManifestPhase` | lib/imagec/imagec.go:513-543 | going past the manifest steps means a schema-1 manifest was fetched and is the one stored |
| `Imagec.SetupPhaseResolves` | lib/imagec/imagec.go:455-509 | after the setup steps, the options are the input options with the resolved tag and image, the host UUID as store name, the learned registry URL, and the token when an OAuth endpoint was found; every other option, destination and host included, is unchanged |
| `Imagec.AuthFailures` | lib/imagec/imagec.go:489-499 | an OAuth-endpoint failure reports "Error: image <reference> not found" for a missing image and "Failed to obtain OAuth endpoint: ..." otherwise |
| `Imagec.ManifestFailures` | lib/imagec/imagec.go:513-530 | a failed schema-1 fetch reports "Error: image <image> not found", "Tag <tag> not found in repository <image>" or "Error while pulling image manifest: ..." by kind. A manifest of another schema gives "Error pulling manifest schema 1". The options and layers are then left as they were |
| `Imagec.SchemaTwoIsBestEffort` | lib/imagec/imagec.go:532-543 | a schema-2 manifest overrides the schema-1 digest; any other schema-2 outcome keeps it. No schema-2 outcome changes the pull's error or layers |
| `Imagec.PullSucceeds` | lib/imagec/imagec.go:449-557 | a pull reports no error exactly when every step succeeds, or when the ping answers "not ok" without an error. When the layer list is built, the pull's layers are that list and its error is the download's |
| `Imagec.ImageC.PullImage` | lib/imagec/imagec.go:449-557 | the returned error, the options and the layer list are exactly those of `Pull`, with `DownloadLayers` taken as its returned error only; the image ID is unchanged |

## Left out

- The network, host and port-layer calls are not modelled; only their results are, taken from `PullOutcomes`. These are `sys.UUID`, `PingPortLayer`, `LearnRegistryURL`, `LearnAuthURL`, `FetchToken`, `FetchImageManifest` and `DownloadLayers`. The downloader and its concurrency are not part of this model.
- `WriteImageBlob` is file and store I/O and is not modelled.
- Logging, progress output and the context timeout are not modelled.
- `reference.ParseNamed`, `url.Parse`, `json.Unmarshal`, `Image.MarshalJSON` and SHA-256 are parameters of type `Library`. Their grammars and encodings are not modelled. A decoded document is modelled with only the fields the code reads (`container.Config` keeps `Cmd` and a map of its other settings; a setting inside an object setting is kept as its JSON text).
- `Imagec.DestinationDirectory`: when `url.Parse` fails, the source drops the error and then reads the scheme of a nil `*url.URL`, which panics. The model's `parseURL` yields a URL for every text, so this panic is not modelled.
- `Imagec.UpdateRepositoryCache` requires a non-empty layer list. The source reads `ImageLayers[0]` and panics on an empty list, and that panic is not modelled.
- `Imagec.ImageC.PullImage`: `DownloadLayers` receives the client and updates the layer records (size, diff ID, in-progress flag). Its code is not part of this model, so only its returned error is modelled and the layer records are left as `LayersToDownload` built them.
- `path.Join`'s final cleaning step is not modelled. The properties are stated on path components, which cleaning keeps apart from `.` and `..` elements.
- `Imagec.RepositoryCache.AddReference`: the code of the docker persona's repository cache is not part of this model. Its effect is an assumption: success binds the reference text and the layer ID to the image, and failure changes nothing.
- `Imagec.ImageC.CreateImageConfig`: the size is an unbounded integer, so the 64-bit wrap-around of `int64` addition is not modelled.
- `Imagec.ImageC.LayersToDownload` requires as many history entries as layers. The source indexes both lists by the history length without checking this.
- `Imagec.ImageC.CreateImageConfig` requires a non-empty chain, since the source reads `images[0]`. It also requires a schema-1 manifest unless the cache answers, since the source dereferences it.
- Layer records are values, so the sharing of `*ImageWithMeta` pointers between the layer list and the layer cache is not modelled.
- Options that the modelled code never reads are not modelled: credentials, timeout, output stream, insecure flags and registry CAs.
