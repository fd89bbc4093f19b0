/**
 * The layer list of a schema-1 manifest (`ImageC.LayersToDownload`).
 *
 * Manifest index 0 is the topmost layer and the last index the oldest one.
 * The entries are decoded from the oldest to the newest, each onto the record
 * its older neighbour left behind (`StateAt`). Every index gets a newly built record
 * unless the layer cache holds a record for that layer ID which is not being
 * downloaded (`LayerList`).
 */
module LayerGraph {
  import opened Wrappers
  import opened Docker

  /** Parent ID of a root layer. */
  const Scratch := "scratch"
  /** Prefix of the error for an undecodable history entry. */
  const HistoryDecodeError := "Failed to unmarshall image history: "

  datatype FSLayer = FSLayer(blobSum: string)
  datatype ManifestHistory = ManifestHistory(v1Compatibility: string)

  /** A schema-1 manifest: `fsLayers[i]` and `history[i]` describe the same layer. */
  datatype Manifest = Manifest(
    name: string,
    tag: string,
    architecture: string,
    fsLayers: seq<FSLayer>,
    history: seq<ManifestHistory>)

  /**
   * `ImageWithMeta`, with the fields of the embedded `models.Image` it sets
   * (`id`, `parent`, `store`) flattened into it.
   */
  datatype ImageWithMeta = ImageWithMeta(
    id: string,
    parent: string,
    store: string,
    diffID: string,
    layer: FSLayer,
    meta: string,
    size: int,
    downloading: bool)

  /** The per-layer documents of a manifest, index-aligned with it. */
  function HistoryMetas(m: Manifest): (metas: seq<string>)
    ensures |metas| == |m.history|
    ensures forall k :: 0 <= k < |m.history| ==> metas[k] == m.history[k].v1Compatibility
  {
    seq(|m.history|, k requires 0 <= k < |m.history| => m.history[k].v1Compatibility)
  }

  /**
   * The record left after decoding `metas[|metas| - 1]`, ..., `metas[i]`, in
   * that order, each onto the previous result, starting from the zero record;
   * or the error of the first of them (the oldest) that does not decode.
   */
  function StateAt(metas: seq<string>, i: nat, decode: string -> Result<V1Document, string>): Result<V1Image, string>
    requires i <= |metas|
    decreases |metas| - i
  {
    if i == |metas| then Ok(EmptyV1)
    else
      match StateAt(metas, i + 1, decode)
      case Err(e) => Err(e)
      case Ok(older) =>
        match decode(metas[i])
        case Err(e) => Err(e)
        case Ok(doc) => Ok(Overlay(older, doc))
  }

  /** Decoding from index `i` succeeds exactly when every entry from `i` on decodes. */
  lemma {:induction false} StateAtOkIff(metas: seq<string>, i: nat, decode: string -> Result<V1Document, string>)
    requires i <= |metas|
    ensures StateAt(metas, i, decode).Ok? <==> forall k :: i <= k < |metas| ==> decode(metas[k]).Ok?
    decreases |metas| - i
  {
    if i < |metas| {
      StateAtOkIff(metas, i + 1, decode);
    }
  }

  /** A failed decode from index `i` reports the oldest entry that does not decode. */
  lemma {:induction false} StateAtErrIsOldestFailure(metas: seq<string>, i: nat, decode: string -> Result<V1Document, string>)
    requires i <= |metas|
    requires StateAt(metas, i, decode).Err?
    ensures exists k :: (i <= k < |metas| && decode(metas[k]) == Err(StateAt(metas, i, decode).error)
      && forall j :: k < j < |metas| ==> decode(metas[j]).Ok?)
    decreases |metas| - i
  {
    if StateAt(metas, i + 1, decode).Err? {
      StateAtErrIsOldestFailure(metas, i + 1, decode);
    } else {
      StateAtOkIff(metas, i + 1, decode);
    }
  }

  /** Once decoding fails at index `i`, decoding from index 0 fails with the same error. */
  lemma {:induction false} StateAtErrReachesTop(metas: seq<string>, i: nat, decode: string -> Result<V1Document, string>)
    requires i <= |metas|
    requires StateAt(metas, i, decode).Err?
    ensures StateAt(metas, 0, decode) == StateAt(metas, i, decode)
    decreases i
  {
    if i > 0 {
      StateAtErrReachesTop(metas, i - 1, decode);
    }
  }

  /** Decoding from index 0 succeeds only if it succeeds from every index. */
  lemma StateAtOkBelowTop(metas: seq<string>, decode: string -> Result<V1Document, string>)
    requires StateAt(metas, 0, decode).Ok?
    ensures forall k :: 0 <= k <= |metas| ==> StateAt(metas, k, decode).Ok?
  {
    StateAtOkIff(metas, 0, decode);
    forall k | 0 <= k <= |metas| ensures StateAt(metas, k, decode).Ok? {
      StateAtOkIff(metas, k, decode);
    }
  }

  /**
   * The overlay rule at one index: a key of entry `i` replaces the value the
   * older entries left, a key it lacks keeps that value.
   */
  lemma StateAtOverlays(metas: seq<string>, i: nat, decode: string -> Result<V1Document, string>)
    requires i < |metas|
    requires StateAt(metas, i, decode).Ok?
    ensures StateAt(metas, i + 1, decode).Ok? && decode(metas[i]).Ok?
    ensures var v, older, doc := StateAt(metas, i, decode).value, StateAt(metas, i + 1, decode).value, decode(metas[i]).value;
      && v.id == (if doc.id.Some? then doc.id.value else older.id)
      && v.parent == (if doc.parent.Some? then doc.parent.value else older.parent)
  {
  }

  /** `"scratch"` for a root layer, the decoded parent otherwise. */
  function ParentOrScratch(parent: string): string
  {
    if parent != "" then parent else Scratch
  }

  /** The record built for one manifest index before the cache is consulted. */
  function FreshRecord(v: V1Image, store: string, h: ManifestHistory, layer: FSLayer): ImageWithMeta
  {
    ImageWithMeta(v.id, ParentOrScratch(v.parent), store, "", layer, h.v1Compatibility, 0, false)
  }

  /** A cached record for the same layer ID replaces `built` unless it is mid-download. */
  function WithCachedLayer(cache: map<string, ImageWithMeta>, built: ImageWithMeta): ImageWithMeta
  {
    if built.id in cache && !cache[built.id].downloading then cache[built.id] else built
  }

  /** The record put at manifest index `i` once the entries from `i` on have decoded. */
  function BuiltAt(m: Manifest, store: string, cache: map<string, ImageWithMeta>,
                   decode: string -> Result<V1Document, string>, i: nat): ImageWithMeta
    requires |m.history| == |m.fsLayers|
    requires i < |m.history|
    requires StateAt(HistoryMetas(m), i, decode).Ok?
  {
    WithCachedLayer(cache, FreshRecord(StateAt(HistoryMetas(m), i, decode).value, store, m.history[i], m.fsLayers[i]))
  }

  /** The record that ends up at manifest index `i`. */
  function RecordAt(m: Manifest, store: string, cache: map<string, ImageWithMeta>,
                    decode: string -> Result<V1Document, string>, i: nat): ImageWithMeta
    requires |m.history| == |m.fsLayers|
    requires i < |m.history|
    requires StateAt(HistoryMetas(m), 0, decode).Ok?
  {
    StateAtOkBelowTop(HistoryMetas(m), decode);
    BuiltAt(m, store, cache, decode, i)
  }

  /** What `LayersToDownload` returns for manifest `m`, store `store` and layer cache `cache`. */
  function LayerList(m: Manifest, store: string, cache: map<string, ImageWithMeta>,
                     decode: string -> Result<V1Document, string>): Result<seq<ImageWithMeta>, string>
    requires |m.history| == |m.fsLayers|
  {
    match StateAt(HistoryMetas(m), 0, decode)
    case Err(e) => Err(HistoryDecodeError + e)
    case Ok(_) => Ok(seq(|m.fsLayers|, i requires 0 <= i < |m.fsLayers| => RecordAt(m, store, cache, decode, i)))
  }

  /** Slots `i` and above of `slots` hold the records built for them. */
  predicate BuiltFrom(m: Manifest, store: string, cache: map<string, ImageWithMeta>,
                      decode: string -> Result<V1Document, string>, slots: seq<ImageWithMeta>, i: nat)
    requires |m.history| == |m.fsLayers|
  {
    && i <= |slots| == |m.fsLayers|
    && StateAt(HistoryMetas(m), i, decode).Ok?
    && forall k :: i <= k < |slots| ==>
         StateAt(HistoryMetas(m), k, decode).Ok? && slots[k] == BuiltAt(m, store, cache, decode, k)
  }

  /** Filling slot `i - 1` with its record extends `BuiltFrom` down by one. */
  lemma BuiltFromStep(m: Manifest, store: string, cache: map<string, ImageWithMeta>,
                      decode: string -> Result<V1Document, string>, slots: seq<ImageWithMeta>, i: nat)
    requires |m.history| == |m.fsLayers|
    requires 0 < i && BuiltFrom(m, store, cache, decode, slots, i)
    requires StateAt(HistoryMetas(m), i - 1, decode).Ok?
    ensures BuiltFrom(m, store, cache, decode, slots[i - 1 := BuiltAt(m, store, cache, decode, i - 1)], i - 1)
  {
  }

  /** Once every slot holds its record, the slots are the layer list. */
  lemma BuiltFromAll(m: Manifest, store: string, cache: map<string, ImageWithMeta>,
                     decode: string -> Result<V1Document, string>, slots: seq<ImageWithMeta>)
    requires |m.history| == |m.fsLayers|
    requires BuiltFrom(m, store, cache, decode, slots, 0)
    ensures LayerList(m, store, cache, decode) == Ok(slots)
  {
    LayerListIs(m, store, cache, decode, slots);
  }

  /** A list with the right record at every index is the layer list. */
  lemma LayerListIs(m: Manifest, store: string, cache: map<string, ImageWithMeta>,
                    decode: string -> Result<V1Document, string>, list: seq<ImageWithMeta>)
    requires |m.history| == |m.fsLayers|
    requires StateAt(HistoryMetas(m), 0, decode).Ok?
    requires |list| == |m.fsLayers|
    requires forall k :: 0 <= k < |list| ==> list[k] == RecordAt(m, store, cache, decode, k)
    ensures LayerList(m, store, cache, decode) == Ok(list)
  {
    var built := seq(|m.fsLayers|, i requires 0 <= i < |m.fsLayers| => RecordAt(m, store, cache, decode, i));
    assert forall k :: 0 <= k < |list| ==> built[k] == list[k];
    assert built == list;
  }

  /**
   * The list is refused exactly when some history entry does not decode, and
   * the error then names the oldest such entry's decoding error.
   */
  lemma LayerListFailsIffUndecodable(m: Manifest, store: string, cache: map<string, ImageWithMeta>,
                                     decode: string -> Result<V1Document, string>)
    requires |m.history| == |m.fsLayers|
    ensures LayerList(m, store, cache, decode).Err? <==>
      exists k :: 0 <= k < |m.history| && decode(m.history[k].v1Compatibility).Err?
    ensures LayerList(m, store, cache, decode).Err? ==>
      exists k, e :: (0 <= k < |m.history| && decode(m.history[k].v1Compatibility) == Err(e)
        && LayerList(m, store, cache, decode).error == HistoryDecodeError + e
        && forall j :: k < j < |m.history| ==> decode(m.history[j].v1Compatibility).Ok?)
  {
    var metas := HistoryMetas(m);
    StateAtOkIff(metas, 0, decode);
    if StateAt(metas, 0, decode).Err? {
      StateAtErrIsOldestFailure(metas, 0, decode);
    }
  }

  /**
   * A successful list has one record per manifest layer, and record `i` is the
   * cached record for its layer ID when that one is not mid-download, and
   * otherwise the record built from `history[i]` and `fsLayers[i]`: the decoded
   * ID, the decoded parent or `"scratch"` when that is empty, the store, the
   * raw history entry and the manifest layer, with no diff ID, size 0 and not
   * downloading.
   */
  lemma LayerListRecords(m: Manifest, store: string, cache: map<string, ImageWithMeta>,
                         decode: string -> Result<V1Document, string>, i: nat)
    requires |m.history| == |m.fsLayers|
    requires LayerList(m, store, cache, decode).Ok?
    requires i < |m.fsLayers|
    ensures |LayerList(m, store, cache, decode).value| == |m.fsLayers|
    ensures StateAt(HistoryMetas(m), i, decode).Ok?
    ensures var v, r := StateAt(HistoryMetas(m), i, decode).value, LayerList(m, store, cache, decode).value[i];
      && (v.id in cache && !cache[v.id].downloading ==> r == cache[v.id])
      && (!(v.id in cache && !cache[v.id].downloading) ==>
            && r.id == v.id
            && (v.parent == "" ==> r.parent == Scratch)
            && (v.parent != "" ==> r.parent == v.parent)
            && r.store == store
            && r.meta == m.history[i].v1Compatibility
            && r.layer == m.fsLayers[i]
            && r.diffID == "" && r.size == 0 && !r.downloading)
  {
    StateAtOkBelowTop(HistoryMetas(m), decode);
  }
}
