/**
 * The image configuration and image ID of a pulled layer chain
 * (`ImageC.CreateImageConfig`).
 *
 * The chain is walked from the oldest layer (the last index) to the topmost
 * one (index 0). Each layer's document is decoded onto the record the older
 * layers left. Each layer gets one history entry, is marked empty when its
 * diff ID is the empty-tar digest, and otherwise contributes its diff ID to
 * the root filesystem. The configuration built from the topmost record is
 * serialised and hashed before the parent, the size and the ID are filled in,
 * so the image ID depends only on the layers' documents and diff IDs.
 */
module ImageIdentity {
  import opened Wrappers
  import opened Docker
  import opened Externals
  import opened LayerGraph

  /** Prefix of the error for an undecodable layer document. */
  const LayerDecodeError := "Failed to unmarshall layer history: "
  /** Prefix of the error for a configuration that does not serialise. */
  const MarshalError := "Failed to marshall image metadata: "

  /** `metadata.ImageConfig`. */
  datatype ImageConfig = ImageConfig(
    v1: V1Image,
    imageID: string,
    digests: seq<string>,
    tags: seq<string>,
    name: string,
    diffIDs: map<string, string>,
    history: seq<History>,
    reference: string)

  /** `RepositoryCache().GetImageID(layerID)`: the image ID bound to a layer ID, or "". */
  function LookupImageID(layerImages: map<string, string>, layerID: string): string
  {
    if layerID in layerImages then layerImages[layerID] else ""
  }

  /** The per-layer documents of a layer chain, index-aligned with it. */
  function LayerMetas(images: seq<ImageWithMeta>): (metas: seq<string>)
    ensures |metas| == |images|
    ensures forall k :: 0 <= k < |images| ==> metas[k] == images[k].meta
  {
    seq(|images|, k requires 0 <= k < |images| => images[k].meta)
  }

  /** The history entry of a layer whose documents decode to `v`. */
  function HistoryEntry(v: V1Image, diffID: string): History
  {
    History(v.created, v.author, CommandLine(v.containerConfig), v.comment, diffID == EmptyTarDigest)
  }

  /** The history entries of layers `|images| - 1` down to `i`, oldest first. */
  function HistoryFrom(images: seq<ImageWithMeta>, i: nat, decode: string -> Result<V1Document, string>): seq<History>
    requires i <= |images|
    requires StateAt(LayerMetas(images), i, decode).Ok?
    decreases |images| - i
  {
    if i == |images| then []
    else HistoryFrom(images, i + 1, decode) + [HistoryEntry(StateAt(LayerMetas(images), i, decode).value, images[i].diffID)]
  }

  /** The non-empty diff IDs of layers `|images| - 1` down to `i`, oldest first. */
  function DiffIDsFrom(images: seq<ImageWithMeta>, i: nat): seq<string>
    requires i <= |images|
    decreases |images| - i
  {
    if i == |images| then []
    else DiffIDsFrom(images, i + 1) + (if images[i].diffID == EmptyTarDigest then [] else [images[i].diffID])
  }

  /** The sizes of layers `|images| - 1` down to `i`, added in that order. */
  function SizeFrom(images: seq<ImageWithMeta>, i: nat): int
    requires i <= |images|
    decreases |images| - i
  {
    if i == |images| then 0 else SizeFrom(images, i + 1) + images[i].size
  }

  /** The sum of all layer sizes. */
  function TotalSize(images: seq<ImageWithMeta>): int
  {
    if images == [] then 0 else images[0].size + TotalSize(images[1..])
  }

  /** The number of history entries marked as empty layers. */
  function EmptyCount(history: seq<History>): nat
  {
    if history == [] then 0 else (if history[0].emptyLayer then 1 else 0) + EmptyCount(history[1..])
  }

  /**
   * The document that is serialised and hashed: the topmost record's
   * descriptive fields (no ID, parent or size), the root filesystem and the
   * history.
   */
  function ImageDocument(images: seq<ImageWithMeta>, top: V1Image, decode: string -> Result<V1Document, string>): DockerImage
    requires StateAt(LayerMetas(images), 0, decode) == Ok(top)
  {
    var v1 := V1Image("", "", top.comment, top.created, top.container, top.containerConfig,
                      top.dockerVersion, top.author, top.config, top.architecture, top.os, 0);
    DockerImage(v1, RootFS(LayersRootFS, DiffIDsFrom(images, 0)), HistoryFrom(images, 0, decode))
  }

  /**
   * What `CreateImageConfig` returns for layer chain `images`: the cached
   * configuration when the repository cache maps the topmost layer to an image
   * the image cache holds, and otherwise the configuration computed from the
   * chain, whose image ID is the hash of `ImageDocument`.
   */
  function ImageConfigOf(images: seq<ImageWithMeta>, manifest: Option<Manifest>, tag: string,
                         manifestDigest: string, reference: string, layerImages: map<string, string>,
                         imageCache: map<string, ImageConfig>, lib: Library): Result<ImageConfig, string>
    requires |images| > 0
    requires manifest.Some? || LookupImageID(layerImages, images[0].id) in imageCache
  {
    var cachedID := LookupImageID(layerImages, images[0].id);
    if cachedID in imageCache then Ok(imageCache[cachedID])
    else
      match StateAt(LayerMetas(images), 0, lib.unmarshalV1)
      case Err(e) => Err(LayerDecodeError + e)
      case Ok(top) =>
        var doc := ImageDocument(images, top, lib.unmarshalV1);
        match lib.marshalImage(doc)
        case Err(e) => Err(MarshalError + e)
        case Ok(bytes) =>
          Ok(ImageConfig(
            V1Image(images[0].id, top.parent, top.comment, top.created, top.container, top.containerConfig,
                    top.dockerVersion, top.author, top.config, top.architecture, top.os, SizeFrom(images, 0)),
            lib.sha256Hex(bytes),
            [manifestDigest],
            [tag],
            manifest.value.name,
            map[],
            doc.history,
            reference))
  }

  /** One history entry per layer, oldest first, each built from that layer's decoded record. */
  lemma {:induction false} HistoryFromShape(images: seq<ImageWithMeta>, i: nat, decode: string -> Result<V1Document, string>)
    requires i <= |images|
    requires StateAt(LayerMetas(images), i, decode).Ok?
    ensures |HistoryFrom(images, i, decode)| == |images| - i
    ensures forall j :: i <= j < |images| ==>
      StateAt(LayerMetas(images), j, decode).Ok? &&
      HistoryFrom(images, i, decode)[|images| - 1 - j] == HistoryEntry(StateAt(LayerMetas(images), j, decode).value, images[j].diffID)
    decreases |images| - i
  {
    if i < |images| {
      var metas := LayerMetas(images);
      HistoryFromShape(images, i + 1, decode);
      var older := HistoryFrom(images, i + 1, decode);
      var h := HistoryFrom(images, i, decode);
      assert h == older + [HistoryEntry(StateAt(metas, i, decode).value, images[i].diffID)];
      assert forall k :: 0 <= k < |older| ==> h[k] == older[k];
    }
  }

  /** Every layer is either empty, with a history entry marked so, or contributes one diff ID. */
  lemma {:induction false} DiffIDsPartitionLayers(images: seq<ImageWithMeta>, i: nat, decode: string -> Result<V1Document, string>)
    requires i <= |images|
    requires StateAt(LayerMetas(images), i, decode).Ok?
    ensures |DiffIDsFrom(images, i)| + EmptyCount(HistoryFrom(images, i, decode)) == |images| - i
    decreases |images| - i
  {
    if i < |images| {
      DiffIDsPartitionLayers(images, i + 1, decode);
      EmptyCountAppend(HistoryFrom(images, i + 1, decode),
                       HistoryEntry(StateAt(LayerMetas(images), i, decode).value, images[i].diffID));
    }
  }

  lemma {:induction false} EmptyCountAppend(history: seq<History>, h: History)
    ensures EmptyCount(history + [h]) == EmptyCount(history) + (if h.emptyLayer then 1 else 0)
    decreases |history|
  {
    if history != [] {
      assert (history + [h])[1..] == history[1..] + [h];
      EmptyCountAppend(history[1..], h);
    }
  }

  /** The root filesystem lists the non-empty diff IDs and only those. */
  lemma {:induction false} DiffIDsAreTheNonEmptyLayers(images: seq<ImageWithMeta>, i: nat)
    requires i <= |images|
    ensures forall d :: d in DiffIDsFrom(images, i) ==> d != EmptyTarDigest
    ensures forall k :: i <= k < |images| && images[k].diffID != EmptyTarDigest ==> images[k].diffID in DiffIDsFrom(images, i)
    decreases |images| - i
  {
    if i < |images| {
      DiffIDsAreTheNonEmptyLayers(images, i + 1);
      var older := DiffIDsFrom(images, i + 1);
      var own: seq<string> := if images[i].diffID == EmptyTarDigest then [] else [images[i].diffID];
      assert DiffIDsFrom(images, i) == older + own;
      assert forall d :: d in older + own <==> d in older || d in own;
    }
  }

  /** The accumulated size is the sum of all layer sizes. */
  lemma {:induction false} SizeFromIsTotal(images: seq<ImageWithMeta>, i: nat)
    requires i <= |images|
    ensures SizeFrom(images, i) == TotalSize(images[i..])
    decreases |images| - i
  {
    if i < |images| {
      SizeFromIsTotal(images, i + 1);
      assert images[i..][1..] == images[i + 1..];
    }
  }

  /**
   * When the topmost layer's image is already in the image cache, that
   * configuration is the result and nothing is recomputed.
   */
  lemma CachedConfigReturned(images: seq<ImageWithMeta>, manifest: Option<Manifest>, tag: string,
                             manifestDigest: string, reference: string, layerImages: map<string, string>,
                             imageCache: map<string, ImageConfig>, lib: Library)
    requires |images| > 0
    requires LookupImageID(layerImages, images[0].id) in imageCache
    ensures ImageConfigOf(images, manifest, tag, manifestDigest, reference, layerImages, imageCache, lib)
      == Ok(imageCache[LookupImageID(layerImages, images[0].id)])
  {
  }

  /**
   * A computed configuration has one history entry per layer, oldest first,
   * marked empty exactly for the empty-tar diff ID; the root filesystem holds
   * only non-empty diff IDs, and with the empty entries they account for every
   * layer.
   */
  lemma ComputedHistory(images: seq<ImageWithMeta>, manifest: Option<Manifest>, tag: string,
                        manifestDigest: string, reference: string, layerImages: map<string, string>,
                        imageCache: map<string, ImageConfig>, lib: Library)
    requires |images| > 0 && manifest.Some?
    requires LookupImageID(layerImages, images[0].id) !in imageCache
    ensures var r := ImageConfigOf(images, manifest, tag, manifestDigest, reference, layerImages, imageCache, lib);
      r.Ok? ==>
        && |r.value.history| == |images|
        && (forall k :: 0 <= k < |images| ==> r.value.history[k].emptyLayer == (images[|images| - 1 - k].diffID == EmptyTarDigest))
        && (forall d :: d in DiffIDsFrom(images, 0) ==> d != EmptyTarDigest)
        && |DiffIDsFrom(images, 0)| + EmptyCount(r.value.history) == |images|
  {
    if StateAt(LayerMetas(images), 0, lib.unmarshalV1).Ok? {
      HistoryFromShape(images, 0, lib.unmarshalV1);
      DiffIDsPartitionLayers(images, 0, lib.unmarshalV1);
    }
    DiffIDsAreTheNonEmptyLayers(images, 0);
  }

  /**
   * A computed configuration carries the sum of the layer sizes, the topmost
   * layer's ID and the topmost decoded parent, one tag, one digest, the
   * manifest's name, the reference and an empty diff-ID map; its image ID is
   * the hash of the serialised `ImageDocument`, which has no ID, parent or size.
   */
  lemma ComputedFields(images: seq<ImageWithMeta>, manifest: Option<Manifest>, tag: string,
                       manifestDigest: string, reference: string, layerImages: map<string, string>,
                       imageCache: map<string, ImageConfig>, lib: Library)
    requires |images| > 0 && manifest.Some?
    requires LookupImageID(layerImages, images[0].id) !in imageCache
    ensures var r := ImageConfigOf(images, manifest, tag, manifestDigest, reference, layerImages, imageCache, lib);
      r.Ok? ==>
        && StateAt(LayerMetas(images), 0, lib.unmarshalV1).Ok?
        && r.value.v1.size == TotalSize(images)
        && r.value.v1.id == images[0].id
        && r.value.v1.parent == StateAt(LayerMetas(images), 0, lib.unmarshalV1).value.parent
        && r.value.tags == [tag] && r.value.digests == [manifestDigest] && r.value.diffIDs == map[]
        && r.value.name == manifest.value.name && r.value.reference == reference
        && var doc := ImageDocument(images, StateAt(LayerMetas(images), 0, lib.unmarshalV1).value, lib.unmarshalV1);
          && doc.v1.id == "" && doc.v1.parent == "" && doc.v1.size == 0
          && lib.marshalImage(doc).Ok?
          && r.value.imageID == lib.sha256Hex(lib.marshalImage(doc).value)
  {
    SizeFromIsTotal(images, 0);
    assert images[0..] == images;
  }

  /**
   * A configuration that is not cached is refused exactly when some layer
   * document does not decode or the assembled document does not serialise.
   * An undecodable document is reported with the decoding error of the oldest
   * such layer; otherwise the serialisation error is reported.
   */
  lemma ComputedConfigFails(images: seq<ImageWithMeta>, manifest: Option<Manifest>, tag: string,
                            manifestDigest: string, reference: string, layerImages: map<string, string>,
                            imageCache: map<string, ImageConfig>, lib: Library)
    requires |images| > 0 && manifest.Some?
    requires LookupImageID(layerImages, images[0].id) !in imageCache
    ensures var r, s := ImageConfigOf(images, manifest, tag, manifestDigest, reference, layerImages, imageCache, lib),
                        StateAt(LayerMetas(images), 0, lib.unmarshalV1);
      r.Err? <==>
        || (exists k :: 0 <= k < |images| && lib.unmarshalV1(images[k].meta).Err?)
        || (s.Ok? && lib.marshalImage(ImageDocument(images, s.value, lib.unmarshalV1)).Err?)
    ensures var r := ImageConfigOf(images, manifest, tag, manifestDigest, reference, layerImages, imageCache, lib);
      (exists k :: 0 <= k < |images| && lib.unmarshalV1(images[k].meta).Err?) ==>
        exists k, e :: (0 <= k < |images| && lib.unmarshalV1(images[k].meta) == Err(e)
          && r == Err(LayerDecodeError + e)
          && forall j :: k < j < |images| ==> lib.unmarshalV1(images[j].meta).Ok?)
    ensures var r, s := ImageConfigOf(images, manifest, tag, manifestDigest, reference, layerImages, imageCache, lib),
                        StateAt(LayerMetas(images), 0, lib.unmarshalV1);
      s.Ok? && lib.marshalImage(ImageDocument(images, s.value, lib.unmarshalV1)).Err? ==>
        r == Err(MarshalError + lib.marshalImage(ImageDocument(images, s.value, lib.unmarshalV1)).error)
  {
    var metas := LayerMetas(images);
    StateAtOkIff(metas, 0, lib.unmarshalV1);
    if StateAt(metas, 0, lib.unmarshalV1).Err? {
      StateAtErrIsOldestFailure(metas, 0, lib.unmarshalV1);
    }
  }

  lemma {:induction false} SameContentSameHistory(a: seq<ImageWithMeta>, b: seq<ImageWithMeta>, i: nat,
                                                  decode: string -> Result<V1Document, string>)
    requires |a| == |b| && i <= |a|
    requires LayerMetas(a) == LayerMetas(b)
    requires forall k :: 0 <= k < |a| ==> a[k].diffID == b[k].diffID
    requires StateAt(LayerMetas(a), i, decode).Ok?
    ensures HistoryFrom(a, i, decode) == HistoryFrom(b, i, decode)
    ensures DiffIDsFrom(a, i) == DiffIDsFrom(b, i)
    decreases |a| - i
  {
    if i < |a| {
      SameContentSameHistory(a, b, i + 1, decode);
    }
  }

  /**
   * The image ID depends only on the layers' documents and diff IDs: two chains
   * that differ only in layer IDs, parents, stores, blob descriptors, sizes or
   * download flags get the same image ID and history, or fail alike.
   */
  lemma ImageIDIgnoresBookkeeping(a: seq<ImageWithMeta>, b: seq<ImageWithMeta>, manifest: Option<Manifest>,
                                  tag: string, manifestDigest: string, reference: string,
                                  layerImages: map<string, string>, imageCache: map<string, ImageConfig>, lib: Library)
    requires |a| == |b| > 0 && manifest.Some?
    requires forall k :: 0 <= k < |a| ==> a[k].meta == b[k].meta && a[k].diffID == b[k].diffID
    requires LookupImageID(layerImages, a[0].id) !in imageCache
    requires LookupImageID(layerImages, b[0].id) !in imageCache
    ensures var ra := ImageConfigOf(a, manifest, tag, manifestDigest, reference, layerImages, imageCache, lib);
      var rb := ImageConfigOf(b, manifest, tag, manifestDigest, reference, layerImages, imageCache, lib);
      && ra.Ok? == rb.Ok?
      && (ra.Ok? ==> ra.value.imageID == rb.value.imageID && ra.value.history == rb.value.history)
  {
    assert LayerMetas(a) == LayerMetas(b);
    if StateAt(LayerMetas(a), 0, lib.unmarshalV1).Ok? {
      SameContentSameHistory(a, b, 0, lib.unmarshalV1);
    }
  }
}
