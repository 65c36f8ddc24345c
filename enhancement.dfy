/**
 * `FacialEnhancementModel`: how it picks a device and loads the GFPGAN
 * restorer at construction, and how `enhance` turns its input into a pixel
 * array, tries the restorer and falls back to the classical pipeline
 * (denoise, sharpen, brighten) when there is no restorer or it raises.
 *
 * The libraries it calls are parameters: the CUDA probe, the file system,
 * the GFPGANer constructor and its `enhance`, PIL's decoder and OpenCV's
 * non-local-means denoiser.
 */
module Enhancement {
  import opened Results
  import opened NdArrays
  import opened Filters

  /** The exceptions `enhance` lets escape to its caller. */
  datatype EnhanceError =
    | DecodeError       // PIL cannot open the bytes
    | UnsupportedArray  // Image.fromarray rejects the array's shape
    | OpenCvError       // the denoiser rejects the array on the fallback path

  // ---------------------------------------------------------------------
  // Collaborators

  /** Parameters of `fastNlMeansDenoisingColored`: h, hColor, templateWindowSize, searchWindowSize. */
  datatype NlMeansParams = NlMeansParams(h: nat, hColor: nat, templateWindowSize: nat, searchWindowSize: nat)

  /** The fixed denoising strength of the fallback pipeline. */
  const DenoiseParams := NlMeansParams(5, 5, 7, 21)

  /** `cv2.fastNlMeansDenoisingColored`; None when OpenCV raises. */
  type Denoiser = (NdArray, NlMeansParams) -> Option<NdArray>

  /**
   * The denoiser accepts every non-empty 3-channel uint8 array and may reject
   * any other; what it returns is a uint8 array of the shape it was given.
   */
  ghost predicate IsDenoiser(denoise: Denoiser) {
    forall a, p :: Valid(a) ==>
      (IsColour(a) && !IsEmpty(a) ==> denoise(a, p).Some?) &&
      (denoise(a, p).Some? ==> Valid(denoise(a, p).value) && SameShape(denoise(a, p).value, a))
  }

  /** A GFPGANer as configured: weights path, upscale, arch, channel multiplier, background upsampler present, device. */
  datatype Restorer = GFPGANer(modelPath: string, upscale: nat, arch: string, channelMultiplier: nat,
                               hasBgUpsampler: bool, device: string)

  /** The restorer the constructor builds: upscale 1, arch 'clean', channel multiplier 2, no background upsampler. */
  function Configured(modelPath: string, device: string): (r: Restorer) {
    GFPGANer(modelPath, 1, "clean", 2, false, device)
  }

  /** Keyword arguments of `GFPGANer.enhance`. */
  datatype RestoreFlags = RestoreFlags(hasAligned: bool, onlyCenterFace: bool, pasteBack: bool)

  /** Every face, not yet aligned, pasted back into the whole frame. */
  const RestoreCall := RestoreFlags(false, false, true)

  /** The third result (`output`) of `GFPGANer.enhance`; None when it raises. */
  type RestoreFn = (Restorer, NdArray, RestoreFlags) -> Option<NdArray>

  /** A restored image is a uint8 array; nothing is promised about its shape. */
  ghost predicate IsRestoreFn(restore: RestoreFn) {
    forall h, a, f :: Valid(a) && restore(h, a, f).Some? ==> Valid(restore(h, a, f).value)
  }

  /** `np.array(Image.open(io.BytesIO(b)))`; None when PIL raises. */
  type Decoder = seq<bv8> -> Option<NdArray>

  /** A decoded image is a uint8 array of a shape PIL can hand back. */
  ghost predicate IsDecoder(decode: Decoder) {
    forall b :: decode(b).Some? ==> Valid(decode(b).value) && PilSupported(decode(b).value)
  }

  /** Everything `enhance` calls out to, and the tie rule of the brightening step. */
  datatype Collaborators = Collaborators(decode: Decoder, denoise: Denoiser, restore: RestoreFn, ties: TieRule)

  ghost predicate ValidCollaborators(ops: Collaborators) {
    IsDecoder(ops.decode) && IsDenoiser(ops.denoise) && IsRestoreFn(ops.restore)
  }

  /** What the process sees at construction time. */
  datatype Environment = Environment(
    gfpganImported: bool,          // `from gfpgan import GFPGANer` succeeded
    cudaAvailable: bool,           // `torch.cuda.is_available()`
    existingPaths: set<string>,    // paths for which `os.path.exists` holds
    constructs: Restorer -> bool)  // the GFPGANer constructor returns without raising

  // ---------------------------------------------------------------------
  // Construction policy

  /** The device: the one asked for, else 'cuda' when CUDA is available, else 'cpu'. */
  function SelectDevice(requested: Option<string>, cudaAvailable: bool): (d: string)
    ensures requested.Some? ==> d == requested.value
    ensures requested.None? ==> (d == "cuda" <==> cudaAvailable) && (d == "cpu" <==> !cudaAvailable)
  {
    match requested
    case Some(dev) => dev
    case None => if cudaAvailable then "cuda" else "cpu"
  }

  /** The restorer handle after construction: present only when every load step succeeded. */
  function LoadedRestorer(modelPath: string, device: string, env: Environment): (r: Option<Restorer>)
    ensures r.Some? <==> env.gfpganImported && modelPath in env.existingPaths && env.constructs(Configured(modelPath, device))
    ensures r.Some? ==> r.value.modelPath == modelPath && r.value.device == device && r.value.upscale == 1
  {
    if env.gfpganImported && modelPath in env.existingPaths && env.constructs(Configured(modelPath, device))
    then Some(Configured(modelPath, device))
    else None
  }

  /** The two ways loading fails. */
  datatype LoadError = FileNotFound | ConstructorRaised

  // ---------------------------------------------------------------------
  // Input normalisation

  /** The three argument types `enhance` accepts: encoded bytes, a numpy array, a PIL image (as its pixels). */
  datatype ImageInput = Encoded(bytes: seq<bv8>) | NumpyArray(arr: NdArray) | PilImage(pixels: NdArray)

  /** Arrays are uint8; a PIL image's pixels are an array PIL can rebuild an image from. */
  ghost predicate WellFormedInput(input: ImageInput) {
    match input
    case Encoded(_) => true
    case NumpyArray(a) => Valid(a)
    case PilImage(p) => Valid(p) && PilSupported(p)
  }

  /**
   * `img_array = np.array(image)` after the input-type dispatch: bytes are
   * decoded, an array goes through `Image.fromarray` and back, a PIL image
   * gives its pixels.
   */
  function ToPixelArray(input: ImageInput, decode: Decoder): (r: Result<NdArray, EnhanceError>)
    requires WellFormedInput(input) && IsDecoder(decode)
    ensures r.Ok? ==> Valid(r.value) && PilSupported(r.value)
    ensures input.Encoded? ==> (r.Ok? <==> decode(input.bytes).Some?) && (r.Err? ==> r.error == DecodeError)
    ensures input.NumpyArray? ==> (r.Ok? <==> PilSupported(input.arr)) && (r.Ok? ==> r.value == input.arr)
    ensures input.NumpyArray? && r.Err? ==> r.error == UnsupportedArray
    ensures input.PilImage? ==> r == Ok(input.pixels)
  {
    match input
    case Encoded(b) =>
      (match decode(b)
       case None => Err(DecodeError)
       case Some(a) => Ok(a))
    case NumpyArray(a) => if PilSupported(a) then Ok(a) else Err(UnsupportedArray)
    case PilImage(p) => Ok(p)
  }

  // ---------------------------------------------------------------------
  // Fallback pipeline

  /**
   * `_basic_enhance`: swap a colour array to BGR, denoise, sharpen (with
   * OpenCV's default border, reflect-101), brighten, swap back. It fails
   * when cvtColor rejects an empty colour array or the denoiser rejects the
   * array, so never on a non-empty colour array; its result has the input's
   * shape and every value is at least 10.
   */
  function BasicEnhance(a: NdArray, denoise: Denoiser, ties: TieRule): (r: Result<NdArray, EnhanceError>)
    requires Valid(a) && IsDenoiser(denoise)
    ensures r.Ok? ==> Valid(r.value) && SameShape(r.value, a)
    ensures r.Ok? ==> forall i, j, k :: InBounds(a, i, j, k) ==> 10 <= r.value.px[i][j][k]
    ensures IsColour(a) ==> (r.Ok? <==> !IsEmpty(a))
    ensures r.Err? ==> r.error == OpenCvError
  {
    if IsColour(a) && IsEmpty(a) then Err(OpenCvError)
    else
      var bgr := ToBgr(a);
      match denoise(bgr, DenoiseParams)
      case None => Err(OpenCvError)
      case Some(d) =>
        Reflect101IsBorderRule();
        var c := ScaleAbs(Sharpen(d, Reflect101), ties);
        if IsColour(a) then
          var out := SwapChannels(c);
          assert forall i, j, k :: InBounds(a, i, j, k) ==> InBounds(a, i, j, 2 - k);
          Ok(out)
        else
          Ok(c)
  }

  /**
   * Apart from the denoiser, the fallback works in the caller's channel
   * order: sharpening and brightening treat channels alike, so the result is
   * those two steps applied to the denoised image put back into RGB order.
   */
  lemma FallbackWorksInCallerOrder(a: NdArray, denoise: Denoiser, ties: TieRule, d: NdArray)
    requires Valid(a) && IsColour(a) && !IsEmpty(a) && IsDenoiser(denoise)
    requires denoise(SwapChannels(a), DenoiseParams) == Some(d)
    ensures Valid(d) && IsColour(d)
    ensures BasicEnhance(a, denoise, ties) == Ok(ScaleAbs(Sharpen(SwapChannels(d), Reflect101), ties))
  {
    Reflect101IsBorderRule();
    var s := Sharpen(d, Reflect101);
    Filter2DCommutesWithSwap(d, SharpenKernel, Reflect101);
    ScaleAbsCommutesWithSwap(s, ties);
  }

  /** On a solid colour the sharpening step of the fallback changes nothing. */
  lemma FallbackSharpenKeepsSolidColour(d: NdArray, colour: seq<int>)
    requires Valid(d) && |colour| == d.channels
    requires forall k :: 0 <= k < d.channels ==> IsByte(colour[k]) && UniformChannel(d, k, colour[k])
    ensures forall k :: 0 <= k < d.channels ==> UniformChannel(Sharpen(d, Reflect101), k, colour[k])
  {
    Reflect101IsBorderRule();
    forall k | 0 <= k < d.channels
      ensures UniformChannel(Sharpen(d, Reflect101), k, colour[k])
    {
      SharpenKeepsUniformChannel(d, Reflect101, k, colour[k]);
    }
  }

  // ---------------------------------------------------------------------
  // Primary path

  /**
   * The body of the `try` in `enhance`: swap a colour array to BGR, run the
   * restorer, swap its output back. None when anything in it raises: the
   * swap of an empty colour array, the restorer itself, the swap of an
   * output that is not a non-empty 3-channel array, or `Image.fromarray` on
   * an output of a shape it cannot take.
   */
  function TryRestore(h: Restorer, a: NdArray, restore: RestoreFn): (r: Option<NdArray>)
    requires Valid(a) && IsRestoreFn(restore)
    ensures r.Some? ==> Valid(r.value) && PilSupported(r.value)
    ensures IsColour(a) && r.Some? ==> IsColour(r.value) && !IsEmpty(r.value)
    ensures IsColour(a) && IsEmpty(a) ==> r.None?
    ensures restore(h, ToBgr(a), RestoreCall).None? ==> r.None?
  {
    if IsColour(a) && IsEmpty(a) then None
    else
      var out := restore(h, ToBgr(a), RestoreCall);
      if out.None? then None
      else if IsColour(a) then
        (if IsColour(out.value) && !IsEmpty(out.value) then Some(SwapChannels(out.value)) else None)
      else
        (if PilSupported(out.value) then Some(out.value) else None)
  }

  /**
   * The primary path hands the caller back its own channel order: when the
   * restorer returns an image of the input's shape, the result is that image
   * converted back, and a restorer that changes nothing gives back the input.
   * (An empty colour input never reaches the restorer.)
   */
  lemma {:induction false} PrimaryReturnsCallerOrder(h: Restorer, a: NdArray, restore: RestoreFn, out: NdArray)
    requires Valid(a) && PilSupported(a) && IsRestoreFn(restore)
    requires IsColour(a) ==> !IsEmpty(a)
    requires restore(h, ToBgr(a), RestoreCall) == Some(out) && SameShape(out, a)
    ensures Valid(out)
    ensures TryRestore(h, a, restore) == Some(ToBgr(out))
    ensures out == ToBgr(a) ==> TryRestore(h, a, restore) == Some(a)
  {
    if out == ToBgr(a) {
      ToBgrRoundTrip(a);
    }
  }

  // ---------------------------------------------------------------------
  // Path selection

  /**
   * What `enhance` returns given the restorer handle: the decoding error if
   * the input cannot be made into an array; else the restorer's result if
   * there is a handle and the attempt did not raise; else the fallback on
   * the array as decoded (not the BGR copy).
   */
  function Enhanced(handle: Option<Restorer>, input: ImageInput, ops: Collaborators): (r: Result<NdArray, EnhanceError>)
    requires WellFormedInput(input) && ValidCollaborators(ops)
    ensures r.Ok? ==> Valid(r.value) && PilSupported(r.value)
    ensures ToPixelArray(input, ops.decode).Err? ==> r == ToPixelArray(input, ops.decode)
    ensures ToPixelArray(input, ops.decode).Ok? && IsColour(ToPixelArray(input, ops.decode).value) ==>
              if IsEmpty(ToPixelArray(input, ops.decode).value) then r == Err(OpenCvError)
              else r.Ok? && IsColour(r.value) && !IsEmpty(r.value)
  {
    match ToPixelArray(input, ops.decode)
    case Err(e) => Err(e)
    case Ok(a) =>
      var attempt := if handle.Some? then TryRestore(handle.value, a, ops.restore) else None;
      if attempt.Some? then Ok(attempt.value) else BasicEnhance(a, ops.denoise, ops.ties)
  }

  /** Without a restorer every request is served by the fallback on the array as given. */
  lemma DegradedUsesFallback(input: ImageInput, ops: Collaborators, a: NdArray)
    requires WellFormedInput(input) && ValidCollaborators(ops)
    requires ToPixelArray(input, ops.decode) == Ok(a)
    ensures Enhanced(None, input, ops) == BasicEnhance(a, ops.denoise, ops.ties)
  {
  }

  /** When the restorer raises, the request is served by the fallback on the unswapped array. */
  lemma RestorerFailureFallsBack(h: Restorer, input: ImageInput, ops: Collaborators, a: NdArray)
    requires WellFormedInput(input) && ValidCollaborators(ops)
    requires ToPixelArray(input, ops.decode) == Ok(a)
    requires ops.restore(h, ToBgr(a), RestoreCall).None?
    ensures Enhanced(Some(h), input, ops) == BasicEnhance(a, ops.denoise, ops.ties)
  {
  }

  /** When the restorer succeeds, its channel-restored output is the result. */
  lemma RestorerSuccessIsServed(h: Restorer, input: ImageInput, ops: Collaborators, a: NdArray)
    requires WellFormedInput(input) && ValidCollaborators(ops)
    requires ToPixelArray(input, ops.decode) == Ok(a)
    requires TryRestore(h, a, ops.restore).Some?
    ensures Enhanced(Some(h), input, ops) == Ok(TryRestore(h, a, ops.restore).value)
  {
  }

  /**
   * A non-empty colour image sent to a model without a restorer comes back
   * as an image of the same height and width (a 100 x 100 image stays
   * 100 x 100); an empty one makes cvtColor raise.
   */
  lemma DegradedKeepsSize(input: ImageInput, ops: Collaborators)
    requires WellFormedInput(input) && ValidCollaborators(ops)
    requires ToPixelArray(input, ops.decode).Ok? && IsColour(ToPixelArray(input, ops.decode).value)
    ensures Enhanced(None, input, ops).Ok? <==> !IsEmpty(ToPixelArray(input, ops.decode).value)
    ensures Enhanced(None, input, ops).Ok? ==>
              SameShape(Enhanced(None, input, ops).value, ToPixelArray(input, ops.decode).value)
  {
  }

  /** The enhancer, with its device and its restorer handle (None when it could not be loaded). */
  class FacialEnhancementModel {
    var modelPath: string
    var device: string
    var model: Option<Restorer>

    /**
     * `__init__`: records the path, picks the device, and loads the restorer
     * if the library imported; a failed load is swallowed and leaves `model`
     * None, so construction always completes.
     */
    constructor (modelPath: string, device: Option<string>, env: Environment)
      ensures this.modelPath == modelPath
      ensures this.device == SelectDevice(device, env.cudaAvailable)
      ensures this.model == LoadedRestorer(modelPath, this.device, env)
    {
      this.modelPath := modelPath;
      this.device := SelectDevice(device, env.cudaAvailable);
      this.model := None;
      new;
      if env.gfpganImported {
        var loaded := InitGfpgan(env);
      }
    }

    /**
     * `_init_gfpgan`: fails with FileNotFound when the weights path does not
     * exist, fails when the GFPGANer constructor raises, and otherwise stores
     * the configured restorer.
     */
    method InitGfpgan(env: Environment) returns (result: Outcome<LoadError>)
      modifies this`model
      ensures result == Fail(FileNotFound) <==> modelPath !in env.existingPaths
      ensures result == Pass <==> modelPath in env.existingPaths && env.constructs(Configured(modelPath, device))
      ensures model == if result == Pass then Some(Configured(modelPath, device)) else old(model)
    {
      if modelPath !in env.existingPaths {
        return Fail(FileNotFound);
      }
      var restorer := Configured(modelPath, device);
      if !env.constructs(restorer) {
        return Fail(ConstructorRaised);
      }
      model := Some(restorer);
      result := Pass;
    }

    /**
     * `enhance`: reads the handle and never assigns a field, so a restorer
     * failure on one call does not keep the next call from using it.
     */
    method Enhance(input: ImageInput, ops: Collaborators) returns (out: Result<NdArray, EnhanceError>)
      requires WellFormedInput(input) && ValidCollaborators(ops)
      ensures out == Enhanced(model, input, ops)
    {
      var pixels := ToPixelArray(input, ops.decode);
      if pixels.Err? {
        return Err(pixels.error);
      }
      var a := pixels.value;
      if model.Some? {
        var restored := TryRestore(model.value, a, ops.restore);
        if restored.Some? {
          return Ok(restored.value);
        }
      }
      out := BasicEnhance(a, ops.denoise, ops.ties);
    }

    /** `__call__`: the same as `enhance`. */
    method Call(input: ImageInput, ops: Collaborators) returns (out: Result<NdArray, EnhanceError>)
      requires WellFormedInput(input) && ValidCollaborators(ops)
      ensures out == Enhanced(model, input, ops)
    {
      out := Enhance(input, ops);
    }
  }

  /**
   * Two requests in a row to a loaded model: the first one's restorer
   * failure sends it to the fallback, and the second one still goes to the
   * restorer and gets its result.
   */
  method RetryAfterRestorerFailure(m: FacialEnhancementModel, first: ImageInput, second: ImageInput, ops: Collaborators)
    returns (out1: Result<NdArray, EnhanceError>, out2: Result<NdArray, EnhanceError>)
    requires m.model.Some? && ValidCollaborators(ops)
    requires WellFormedInput(first) && ToPixelArray(first, ops.decode).Ok?
    requires WellFormedInput(second) && ToPixelArray(second, ops.decode).Ok?
    requires TryRestore(m.model.value, ToPixelArray(first, ops.decode).value, ops.restore).None?
    requires TryRestore(m.model.value, ToPixelArray(second, ops.decode).value, ops.restore).Some?
    ensures m.model.Some?
    ensures out1 == BasicEnhance(ToPixelArray(first, ops.decode).value, ops.denoise, ops.ties)
    ensures out2 == Ok(TryRestore(m.model.value, ToPixelArray(second, ops.decode).value, ops.restore).value)
  {
    out1 := m.Enhance(first, ops);
    out2 := m.Enhance(second, ops);
  }
}
