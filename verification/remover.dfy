/**
 * The single-model background remover: hint-to-model lookup, the override to
 * the smallest model, the four-stage search for a model file, the list of
 * available models, the cache reset and the all-opaque fallback mask.
 *
 * The file system is a value: the listing of the cache directory in the order
 * the operating system yields it, and the listing of the bundled directory
 * (absent when that directory does not exist). Decoding, downloading and the
 * segmentation network are oracles carried by `Backend`.
 */
module Remover {
  import opened Wrappers
  import opened Text
  import opened Imaging

  const DefaultModel := "u2netp"
  const ModelDir := "/app/models"
  const BundledDir := "backgroundremover-main/models"
  const Device := "cpu"
  const FailurePrefix := "Background removal failed: "

  /** The models that can always be downloaded, in the order the source lists them. */
  const DownloadableModels := ["u2netp", "u2net", "u2net_human_seg"]

  const HintModels: map<string, string> :=
    map["human" := "u2net_human_seg", "object" := "u2net", "general" := "u2netp", "default" := "u2netp"]

  const ModelUrls: map<string, string> := map[
    "u2netp" := "https://github.com/danielgatis/rembg/releases/download/v0.0.0/u2netp.pth",
    "u2net" := "https://github.com/danielgatis/rembg/releases/download/v0.0.0/u2net.pth",
    "u2net_human_seg" := "https://github.com/danielgatis/rembg/releases/download/v0.0.0/u2net_human_seg.pth"]

  // ---------------------------------------------------------------- model names

  /** `_get_model_name_from_hint`: a case-insensitive lookup with the default model as fallback. */
  function ModelForHint(hint: string): (r: string)
    ensures Lower(hint) == "human" ==> r == "u2net_human_seg"
    ensures Lower(hint) == "object" ==> r == "u2net"
    ensures Lower(hint) != "human" && Lower(hint) != "object" ==> r == DefaultModel
    ensures r in DownloadableModels
  {
    var h := Lower(hint);
    if h in HintModels then HintModels[h] else DefaultModel
  }

  /** Hints that differ only in ASCII case choose the same model. */
  lemma HintIgnoresCase(a: string, b: string)
    requires Lower(a) == Lower(b)
    ensures ModelForHint(a) == ModelForHint(b)
  {
  }

  lemma HintExamples()
    ensures ModelForHint("Human") == "u2net_human_seg"
    ensures ModelForHint("OBJECT") == "u2net"
    ensures ModelForHint("portrait") == DefaultModel
  {
    assert Lower("Human") == "human";
    assert Lower("OBJECT") == "object";
  }

  /** The model `remove_background` runs: whatever the hint chose, the override picks `u2netp`. */
  function EffectiveModel(hint: string): (r: string)
    ensures r == DefaultModel
  {
    var chosen := ModelForHint(hint);
    if chosen != "u2netp" then "u2netp" else chosen
  }

  // ---------------------------------------------------------------- model files

  /** The directories the resolver and the model listing look at. */
  datatype ModelStore = ModelStore(cached: seq<string>, bundled: Option<seq<string>>)

  function CachePath(file: string): string { ModelDir + "/" + file }

  function BundledPath(file: string): string { BundledDir + "/" + file }

  predicate InBundle(store: ModelStore, file: string) {
    store.bundled.Some? && file in store.bundled.value
  }

  /** Matches the glob `*.pth`. */
  predicate IsPth(file: string) {
    EndsWith(file, ".pth")
  }

  /** The model actually downloaded: a name without a known URL is replaced by the default. */
  function DownloadTarget(name: string): (r: string)
    ensures r in ModelUrls
    ensures name in ModelUrls ==> r == name
    ensures name !in ModelUrls ==> r == DefaultModel
  {
    if name in ModelUrls then name else DefaultModel
  }

  /** The first `*.pth` file of a directory listing. */
  function FirstPth(files: seq<string>): (r: Option<string>)
    ensures r.None? <==> forall k :: 0 <= k < |files| ==> !IsPth(files[k])
    ensures r.Some? ==> exists k :: (0 <= k < |files| && files[k] == r.value && IsPth(r.value)
      && forall j :: 0 <= j < k ==> !IsPth(files[j]))
  {
    if files == [] then None
    else if IsPth(files[0]) then Some(files[0])
    else
      var rest := FirstPth(files[1..]);
      if rest.Some? then
        var k :| 0 <= k < |files[1..]| && files[1..][k] == rest.value
          && forall j :: 0 <= j < k ==> !IsPth(files[1..][j]);
        assert files[k + 1] == rest.value;
        assert forall j :: 0 <= j < k + 1 ==> !IsPth(files[j]) by {
          forall j | 0 <= j < k + 1 ensures !IsPth(files[j]) {
            if j > 0 { assert files[j] == files[1..][j - 1]; }
          }
        }
        rest
      else
        rest
  }

  /** Writing a downloaded file: a new name joins the listing, an existing one is overwritten. */
  function WithFile(store: ModelStore, file: string): (r: ModelStore)
    ensures file in r.cached && r.bundled == store.bundled
    ensures forall f :: f in store.cached ==> f in r.cached
  {
    if file in store.cached then store else store.(cached := store.cached + [file])
  }

  datatype Resolution = Resolution(path: Result<string, string>, store: ModelStore)

  /**
   * How the download of a model file ends. `NotWritten`: the request or the
   * opening of the file raises, so nothing is written. `PartlyWritten`: the
   * file was created by `open(..., 'wb')` but the write raises, which leaves
   * a truncated file in the cache directory.
   */
  datatype Download = Downloaded | NotWritten | PartlyWritten

  /** The `except` branch: the first `*.pth` of the cache directory, else an error. */
  function AnyCachedModel(store: ModelStore, target: string): (r: Resolution)
    ensures r.store == store
    ensures FirstPth(store.cached).Some? ==> r.path == Ok(CachePath(FirstPth(store.cached).value))
    ensures FirstPth(store.cached).None? ==> r.path == Err("No model available for " + target)
  {
    match FirstPth(store.cached)
    case Some(f) => Resolution(Ok(CachePath(f)), store)
    case None => Resolution(Err("No model available for " + target), store)
  }

  /**
   * `_download_model_if_needed`: the cached file, else the bundled file, else
   * the download of the model (or of the default when the name has no URL),
   * else any cached `*.pth`, else an error.
   */
  function ResolveModelPath(name: string, store: ModelStore, download: Download): (r: Resolution)
    ensures name + ".pth" in store.cached ==>
      r == Resolution(Ok(CachePath(name + ".pth")), store)
    ensures name + ".pth" !in store.cached && InBundle(store, name + ".pth") ==>
      r == Resolution(Ok(BundledPath(name + ".pth")), store)
    ensures name + ".pth" !in store.cached && !InBundle(store, name + ".pth") && download == Downloaded ==>
      r == Resolution(Ok(CachePath(DownloadTarget(name) + ".pth")), WithFile(store, DownloadTarget(name) + ".pth"))
    ensures name + ".pth" !in store.cached && !InBundle(store, name + ".pth") && download == NotWritten ==>
      r.store == store
      && (FirstPth(store.cached).Some? ==> r.path == Ok(CachePath(FirstPth(store.cached).value)))
      && (FirstPth(store.cached).None? ==> r.path == Err("No model available for " + DownloadTarget(name)))
    ensures name + ".pth" !in store.cached && !InBundle(store, name + ".pth") && download == PartlyWritten ==>
      r.store == WithFile(store, DownloadTarget(name) + ".pth")
      && FirstPth(r.store.cached).Some? && r.path == Ok(CachePath(FirstPth(r.store.cached).value))
    ensures r.path.Ok? || r.store == store
  {
    var file := name + ".pth";
    if file in store.cached then Resolution(Ok(CachePath(file)), store)
    else if InBundle(store, file) then Resolution(Ok(BundledPath(file)), store)
    else
      var target := DownloadTarget(name) + ".pth";
      match download
      case Downloaded => Resolution(Ok(CachePath(target)), WithFile(store, target))
      case NotWritten => AnyCachedModel(store, DownloadTarget(name))
      case PartlyWritten =>
        assert IsPth(target) by { assert target[|target| - 4..] == ".pth"; }
        AnyCachedModel(WithFile(store, target), DownloadTarget(name))
  }

  /** Once a known model has been downloaded, the next lookup is served from the cache directory. */
  lemma DownloadedModelIsCached(name: string, store: ModelStore, later: Download)
    requires name in ModelUrls
    requires name + ".pth" !in store.cached && !InBundle(store, name + ".pth")
    ensures var first := ResolveModelPath(name, store, Downloaded);
      first.path == Ok(CachePath(name + ".pth"))
      && ResolveModelPath(name, first.store, later) == Resolution(first.path, first.store)
  {
  }

  /**
   * A write that fails after the file was created still succeeds: with no
   * other model cached, the truncated file is served at once, and every later
   * lookup takes it as the cached model without downloading again.
   */
  lemma PartialWriteIsServedAsModel(name: string, store: ModelStore, later: Download)
    requires name in ModelUrls
    requires name + ".pth" !in store.cached && !InBundle(store, name + ".pth")
    requires FirstPth(store.cached).None?
    ensures var first := ResolveModelPath(name, store, PartlyWritten);
      first.path == Ok(CachePath(name + ".pth"))
      && ResolveModelPath(name, first.store, later) == Resolution(first.path, first.store)
  {
    var file := name + ".pth";
    var first := ResolveModelPath(name, store, PartlyWritten);
    assert first.store.cached == store.cached + [file];
    assert IsPth(file) by { assert file[|file| - 4..] == ".pth"; }
    var f := FirstPth(first.store.cached).value;
  }

  /**
   * A name without a URL is never cached under its own file name: every
   * lookup that misses the cache and the bundle downloads the default again.
   */
  lemma UnknownModelFetchesDefault(name: string, store: ModelStore)
    requires name !in ModelUrls
    requires name + ".pth" !in store.cached && !InBundle(store, name + ".pth")
    ensures var first := ResolveModelPath(name, store, Downloaded);
      first.path == Ok(CachePath(DefaultModel + ".pth"))
      && (name + ".pth" !in first.store.cached || name + ".pth" == DefaultModel + ".pth")
  {
  }

  // ---------------------------------------------------------------- available models

  /** `Path(file).stem` for a file matching `*.pth`. */
  function Stem(file: string): string {
    if |file| > 4 then file[..|file| - 4] else file
  }

  /** The stems of the `*.pth` files of a listing, in listing order. */
  function PthStems(files: seq<string>): (r: seq<string>)
    ensures |r| <= |files|
  {
    if files == [] then []
    else
      var init := files[..|files| - 1];
      var last := files[|files| - 1];
      PthStems(init) + (if IsPth(last) then [Stem(last)] else [])
  }

  /** Every listed stem comes from a `*.pth` file of the listing. */
  lemma {:induction false} StemSource(files: seq<string>, x: string) returns (f: string)
    requires x in PthStems(files)
    ensures f in files && IsPth(f) && x == Stem(f)
  {
    var init := files[..|files| - 1];
    var last := files[|files| - 1];
    assert files == init + [last];
    if x in PthStems(init) {
      f := StemSource(init, x);
    } else {
      f := last;
    }
  }

  lemma PthStemsStep(files: seq<string>, i: nat)
    requires i < |files|
    ensures PthStems(files[..i + 1]) ==
      PthStems(files[..i]) + (if IsPth(files[i]) then [Stem(files[i])] else [])
  {
    assert files[..i + 1][..i] == files[..i];
  }

  /** The only `*.pth` name of four characters is the bare extension. */
  lemma BareExtension(f: string)
    requires IsPth(f)
    ensures |f| == 4 ==> f == ".pth"
  {
    if |f| == 4 {
      assert f[|f| - 4..] == f;
    }
  }

  /** Distinct `*.pth` names other than the bare extension have distinct stems. */
  lemma StemInjective(f: string, g: string)
    requires IsPth(f) && IsPth(g) && f != ".pth" && g != ".pth"
    ensures f != g ==> Stem(f) != Stem(g)
  {
    BareExtension(f);
    BareExtension(g);
    assert f == Stem(f) + ".pth";
    assert g == Stem(g) + ".pth";
  }

  lemma {:induction false} DistinctStems(files: seq<string>)
    requires NoDup(files) && ".pth" !in files
    ensures NoDup(PthStems(files))
  {
    if files != [] {
      var init := files[..|files| - 1];
      var last := files[|files| - 1];
      assert files == init + [last];
      DistinctStems(init);
      var s := PthStems(init);
      if IsPth(last) {
        forall k | 0 <= k < |s| ensures s[k] != Stem(last) {
          var f := StemSource(init, s[k]);
          var m :| 0 <= m < |init| && init[m] == f;
          assert f != last by { assert files[m] == f; }
          StemInjective(f, last);
        }
      }
    }
  }

  /** Two files, one stem: `.pth` and `.pth.pth` are both listed as `.pth`. */
  lemma StemCollision()
    ensures PthStems([".pth", ".pth.pth"]) == [".pth", ".pth"]
  {
    assert IsPth(".pth");
    assert ".pth.pth"[4..] == ".pth";
    assert IsPth(".pth.pth");
    assert Stem(".pth.pth") == ".pth";
    assert [".pth", ".pth.pth"][..1] == [".pth"];
    assert [".pth"][..0] == [];
    assert PthStems([".pth"]) == [".pth"];
  }

  // ---------------------------------------------------------------- the remover object

  datatype ModelHandle = ModelHandle(name: string)

  datatype MattingOptions = MattingOptions(
    enabled: bool, foregroundThreshold: int, backgroundThreshold: int,
    erodeStructureSize: int, baseSize: int)

  /** The keyword defaults of `remove_background`. */
  const DefaultMatting := MattingOptions(true, 240, 10, 10, 1000)

  datatype ImageInput = Encoded(data: seq<byte>) | Decoded(image: RgbImage)

  datatype Metadata = Metadata(
    modelUsed: string, processingTime: nat, alphaMattingEnabled: bool, device: string,
    inputSize: (nat, nat), outputSize: (nat, nat))

  /** The class of the PIL image `Image.open` makes of the library's PNG output. */
  const OpenedClass := "PngImageFile"
  /** The class of the PIL image `Image.fromarray` builds. */
  const BuiltClass := "Image"

  /** `(processed_image, metadata)`; `pilClass` names the Python class of the image object. */
  datatype Removal = Removal(image: RgbaImage, metadata: Metadata, pilClass: string)

  /**
   * The foreign collaborators. `decode` is `Image.open` with the conversion
   * to RGB; `Err` carries the exception text. `Image.open` reads only the
   * header, and an image already in RGB mode is not converted, so its pixel
   * data is first read when it is saved as PNG, after the model search:
   * `load` is the error that read raises, if any. `fetch` says how the
   * download of a model ends, and `segment` is the segmentation call
   * (`None` when it raises).
   */
  datatype Backend = Backend(
    decode: seq<byte> -> Result<RgbImage, string>,
    load: seq<byte> -> Option<string>,
    fetch: string -> Download,
    segment: (RgbImage, MattingOptions, string) -> Option<RgbaImage>)

  /** The bitmap the pipeline works on, when decoding succeeds. */
  function InputImage(input: ImageInput, backend: Backend): Option<RgbImage> {
    match input
    case Decoded(image) => Some(image)
    case Encoded(data) => if backend.decode(data).Ok? then Some(backend.decode(data).value) else None
  }

  /** The error the first read of the pixel data raises, for an upload still waiting to be read. */
  function DeferredLoadError(input: ImageInput, backend: Backend): Option<string> {
    match input
    case Encoded(data) => backend.load(data)
    case Decoded(_) => None
  }

  /** What `remove_background` returns or raises, and the model store it leaves. */
  datatype Outcome = Outcome(result: Result<Removal, string>, store: ModelStore)

  /**
   * `remove_background` as a function of its inputs: decode, pick the model
   * (always `u2netp`), make sure its file exists, read the pixels while
   * encoding them as PNG, segment, and fall back to
   * the all-opaque copy when the segmentation raises. Every failure is
   * reported with the same prefix. `elapsed` is the clock reading the source
   * subtracts.
   */
  function RemovalRun(input: ImageInput, hint: string, matting: MattingOptions,
                      store: ModelStore, backend: Backend, elapsed: nat): (o: Outcome)
    ensures o.result.Err? ==> StartsWith(o.result.error, FailurePrefix)
    ensures o.result.Ok? ==> (o.result.value.metadata.modelUsed == DefaultModel
      && o.result.value.metadata.device == Device
      && o.result.value.metadata.processingTime == elapsed
      && o.result.value.metadata.alphaMattingEnabled == matting.enabled)
    ensures InputImage(input, backend).None? ==>
      o == Outcome(Err(FailurePrefix + backend.decode(input.data).error), store)
    ensures InputImage(input, backend).Some? ==>
      var image := InputImage(input, backend).value;
      var res := ResolveModelPath(DefaultModel, store, backend.fetch(DefaultModel));
      var segmented := backend.segment(image, matting, DefaultModel);
      o.store == res.store
      && (res.path.Err? ==> o.result == Err(FailurePrefix + res.path.error))
      && (res.path.Ok? && DeferredLoadError(input, backend).Some? ==>
            o.result == Err(FailurePrefix + DeferredLoadError(input, backend).value))
      && (res.path.Ok? && DeferredLoadError(input, backend).None? ==> (o.result.Ok?
        && o.result.value.metadata.inputSize == (image.width, image.height)
        && o.result.value.metadata.outputSize == (o.result.value.image.width, o.result.value.image.height)
        && (segmented.Some? ==>
              o.result.value.image == segmented.value && o.result.value.pilClass == OpenedClass)
        && (segmented.None? ==>
              o.result.value.image == ConvertRgba(image) && o.result.value.pilClass == BuiltClass)))
  {
    match InputImage(input, backend)
    case None => Outcome(Err(FailurePrefix + backend.decode(input.data).error), store)
    case Some(image) =>
      var model := EffectiveModel(hint);
      var res := ResolveModelPath(model, store, backend.fetch(DownloadTarget(model)));
      if res.path.Err? then Outcome(Err(FailurePrefix + res.path.error), res.store)
      else if DeferredLoadError(input, backend).Some? then
        Outcome(Err(FailurePrefix + DeferredLoadError(input, backend).value), res.store)
      else
        var segmented := backend.segment(image, matting, model);
        var processed := if segmented.Some? then segmented.value else ConvertRgba(image);
        var pilClass := if segmented.Some? then OpenedClass else BuiltClass;
        var metadata := Metadata(model, elapsed, matting.enabled, Device,
                                 (image.width, image.height), (processed.width, processed.height));
        Outcome(Ok(Removal(processed, metadata, pilClass)), res.store)
  }

  /**
   * An upload whose pixel data turns out to be unreadable still triggers the
   * model download first: the request fails, and the downloaded file stays
   * in the cache.
   */
  lemma LateDecodeFailureKeepsDownload(data: seq<byte>, hint: string, matting: MattingOptions,
                                       store: ModelStore, backend: Backend, elapsed: nat)
    requires backend.decode(data).Ok? && backend.load(data).Some?
    requires DefaultModel + ".pth" !in store.cached && !InBundle(store, DefaultModel + ".pth")
    requires backend.fetch(DefaultModel) == Downloaded
    ensures var o := RemovalRun(Encoded(data), hint, matting, store, backend, elapsed);
      o.result == Err(FailurePrefix + backend.load(data).value)
      && DefaultModel + ".pth" in o.store.cached
  {
  }

  /** `data[~mask] = [0, 0, 0, 0]`: the pixels outside the mask become transparent, the rest stay. */
  method ClearOutsideMask(data: array<Rgba>, mask: array<bool>)
    requires data.Length == mask.Length
    modifies data
    ensures forall k :: 0 <= k < data.Length ==>
      data[k] == if mask[k] then old(data[k]) else Transparent
  {
    for i := 0 to data.Length
      invariant forall k :: 0 <= k < i ==> data[k] == if mask[k] then old(data[k]) else Transparent
      invariant forall k :: i <= k < data.Length ==> data[k] == old(data[k])
    {
      if !mask[i] {
        data[i] := Transparent;
      }
    }
  }

  class BackgroundRemover {
    var modelCache: map<string, ModelHandle>
    const defaultModel: string := DefaultModel
    const device: string := Device

    constructor ()
      ensures modelCache == map[]
    {
      modelCache := map[];
    }

    /** `clear_cache`: the cache is emptied and nothing else changes. */
    method ClearCache()
      modifies this
      ensures modelCache == map[]
    {
      modelCache := map[];
    }

    /**
     * `_simple_remove_background`: converts to RGBA, builds an all-true mask
     * and clears the pixels outside it, so every pixel is kept, opaque.
     */
    method SimpleRemoveBackground(image: RgbImage) returns (out: RgbaImage)
      ensures out.width == image.width && out.height == image.height
      ensures |out.pixels| == |image.pixels|
      ensures forall i :: 0 <= i < |image.pixels| ==> out.pixels[i] == Opaque(image.pixels[i])
      ensures out == ConvertRgba(image)
    {
      var n := |image.pixels|;
      var data := new Rgba[n](i requires 0 <= i < n => Opaque(image.pixels[i]));
      var mask := new bool[n](i => true);
      ClearOutsideMask(data, mask);
      out := RgbaImage(image.width, image.height, data[..]);
    }

    /** `remove_background`: the result and the model store are those of `RemovalRun`. */
    method RemoveBackground(input: ImageInput, hint: string, matting: MattingOptions,
                            store: ModelStore, backend: Backend, elapsed: nat)
      returns (r: Result<Removal, string>, store': ModelStore)
      ensures Outcome(r, store') == RemovalRun(input, hint, matting, store, backend, elapsed)
    {
      var image: RgbImage;
      match input {
        case Encoded(data) =>
          var decoded := backend.decode(data);
          if decoded.Err? {
            return Err(FailurePrefix + decoded.error), store;
          }
          image := decoded.value;
        case Decoded(img) =>
          image := img;
      }
      var modelName := ModelForHint(hint);
      if modelName != "u2netp" {
        modelName := "u2netp";
      }
      var resolution := ResolveModelPath(modelName, store, backend.fetch(DownloadTarget(modelName)));
      store' := resolution.store;
      if resolution.path.Err? {
        return Err(FailurePrefix + resolution.path.error), store';
      }
      if input.Encoded? {
        var unreadable := backend.load(input.data);
        if unreadable.Some? {
          return Err(FailurePrefix + unreadable.value), store';
        }
      }
      var processed: RgbaImage;
      var pilClass: string;
      var segmented := backend.segment(image, matting, modelName);
      if segmented.Some? {
        processed, pilClass := segmented.value, OpenedClass;
      } else {
        processed := SimpleRemoveBackground(image);
        pilClass := BuiltClass;
      }
      var metadata := Metadata(modelName, elapsed, matting.enabled, device,
                               (image.width, image.height), (processed.width, processed.height));
      r := Ok(Removal(processed, metadata, pilClass));
    }

    /**
     * `get_available_models`: the stems of the cached `*.pth` files, then the
     * bundled stems not yet listed, then the downloadable defaults not yet
     * listed, sorted by code point.
     */
    method GetAvailableModels(store: ModelStore) returns (models: seq<string>)
      ensures Sorted(models)
      ensures forall m :: m in models <==>
        m in PthStems(store.cached)
        || (store.bundled.Some? && m in PthStems(store.bundled.value))
        || m in DownloadableModels
      ensures NoDup(PthStems(store.cached)) ==> NoDup(models)
    {
      var found: seq<string> := [];
      for i := 0 to |store.cached|
        invariant found == PthStems(store.cached[..i])
      {
        PthStemsStep(store.cached, i);
        var f := store.cached[i];
        if IsPth(f) {
          found := found + [Stem(f)];
        }
      }
      assert store.cached[..|store.cached|] == store.cached;
      ghost var cachedStems := found;
      if store.bundled.Some? {
        var files := store.bundled.value;
        for i := 0 to |files|
          invariant forall m :: m in found <==> m in cachedStems || m in PthStems(files[..i])
          invariant NoDup(cachedStems) ==> NoDup(found)
        {
          PthStemsStep(files, i);
          var f := files[i];
          if IsPth(f) && Stem(f) !in found {
            found := found + [Stem(f)];
          }
        }
        assert files[..|files|] == files;
      }
      ghost var listed := found;
      for i := 0 to |DownloadableModels|
        invariant forall m :: m in found <==> m in listed || m in DownloadableModels[..i]
        invariant NoDup(cachedStems) ==> NoDup(found)
      {
        var m := DownloadableModels[i];
        if m !in found {
          found := found + [m];
        }
      }
      assert DownloadableModels[..|DownloadableModels|] == DownloadableModels;
      models := SortStrings(found);
      if NoDup(cachedStems) {
        PermutationNoDup(found, models);
      }
      assert forall m :: m in models <==> m in multiset(found);
    }
  }
}
