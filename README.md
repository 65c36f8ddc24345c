# FacialEnhancementModel, modelled in Dafny

This project models the enhancement core of the refaceit backend, the class
`FacialEnhancementModel` in `backend/model.py`, and proves properties of the model:

- **Construction.** The class chooses a compute device. It loads the GFPGAN
  restorer only when the `gfpgan` package imported, the weights path exists
  and the GFPGANer constructor does not raise. Every load failure is
  swallowed, and the handle `model` stays None.
- **`enhance`.** The input is turned into a pixel array, whether it arrives
  as encoded bytes, a numpy array or a PIL image.
  - With a handle, the array is swapped to BGR, restored, and swapped back.
  - With no handle, or when anything in that attempt raises, the array as
    decoded goes to the fallback pipeline.
  - `enhance` never assigns a field, so a failure is not sticky.
- **Fallback pipeline (`_basic_enhance`).** The steps are: channel swap (only
  for H×W×3 arrays), non-local-means denoise (5, 5, 7, 21), 3×3 sharpen with
  8-bit saturation, `convertScaleAbs(alpha=1.1, beta=10)`, and the reverse
  swap.

Modules:

- `Results` (results.dfy): Option, Result and Outcome values that stand for
  the code's exceptions.
- `NdArrays` (ndarrays.dfy): uint8 arrays of shape H×W or H×W×C, and the
  RGB↔BGR channel reversal.
- `Filters` (filters.dfy): border rules, the 3×3 correlation behind
  `filter2D`, and `convertScaleAbs`.
- `Enhancement` (enhancement.dfy): the collaborators as oracles, input
  normalisation, the fallback pipeline, the restorer attempt, path
  selection, and the class.

The model treats these as parameters, each with the weakest contract the
code relies on:

- the CUDA probe, the file system and the GFPGANer constructor (the
  `Environment` value);
- PIL's decoder (returns a uint8 array or raises);
- OpenCV's denoiser (accepts every non-empty 3-channel array, may reject
  any other, and keeps the shape);
- `GFPGANer.enhance` (raises, or returns a uint8 array of any shape);
- the rounding of exact .5 cases in `convertScaleAbs` (a tie rule: for each
  value, whether its tie rounds up).

Behaviour of the code that the model makes explicit:

- `enhance` never assigns `self.model`. A restorer failure is caught for
  that call only, and every later call with a handle tries the restorer
  again (`RetryAfterRestorerFailure`).
- The fallback call sits outside the `try`. The colour denoiser is called
  even on arrays that are not 3-channel, so its rejection escapes as an
  error (`OpenCvError`).
- `cv2.cvtColor` rejects an empty array. An H×W×3 array with no pixels makes
  the swap raise on both paths: inside the `try` it sends the request to the
  fallback, and in the fallback it escapes as `OpenCvError`.
- Colour correction is `convertScaleAbs`, which takes the absolute value of
  1.1·x + 10 and rounds. On uint8 inputs the absolute value changes nothing.
  The rounding is modelled exactly except on .5 ties, where bounds are proved
  instead.

## Model

| member | source | states |
|---|---|---|
| Enhancement.SelectDevice | backend/model.py:35-38 | a requested device is kept unchanged; with none requested the device is "cuda" exactly when CUDA is available and "cpu" exactly when it is not |
| Enhancement.LoadedRestorer | backend/model.py:43-67 | after construction the handle is present if and only if gfpgan imported, the weights path exists and the GFPGANer constructor succeeded; when present it is configured with that path, that device and upscale 1 |
| Enhancement.FacialEnhancementModel.constructor | backend/model.py:25-52 | stores the path, stores the selected device, and leaves the handle equal to LoadedRestorer; it always completes, whatever fails while loading |
| Enhancement.FacialEnhancementModel.InitGfpgan | backend/model.py:54-67 | fails with FileNotFound exactly when the path does not exist; succeeds exactly when the path exists and the constructor does not raise; only on success does it set the handle, to GFPGANer(path, 1, 'clean', 2, no background upsampler, device) |
| NdArrays.SwapPixel | backend/model.py:73 | one pixel's three channel values come out in reverse order |
| NdArrays.SwapChannels | backend/model.py:72-73 | the RGB↔BGR conversion keeps the shape and the uint8 range, and element k of each pixel becomes element 2-k |
| NdArrays.SwapChannelsInvolution | backend/model.py:89-92 | swapping twice returns the original array |
| NdArrays.SwapChannelsKeepsPixelValues | backend/model.py:73 | the swap only reorders: every pixel keeps the same multiset of values |
| NdArrays.ToBgr | backend/model.py:72-75 | the conditional swap keeps the shape and leaves an array that is not H×W×3 unchanged |
| NdArrays.ToBgrRoundTrip | backend/model.py:118-133 | converting on the way in and again on the way out gives back the caller's array, for every shape |
| Filters.Saturate | backend/model.py:83 | 8-bit saturation gives a value in 0..255: identity inside the range, 0 below it, 255 above it |
| Filters.Reflect101IsBorderRule | backend/model.py:83 | OpenCV's default reflect-101 border reads inside the axis for every index the 3×3 window reaches, and leaves in-range indices alone |
| Filters.SharpenKernelWeightsSumToOne | backend/model.py:82 | the kernel [[0,-1,0],[-1,5,-1],[0,-1,0]] is 3×3 and its weights sum to 1 |
| Filters.Filter2D | backend/model.py:83 | filter2D with output depth -1 keeps the shape, and every output value is in 0..255 |
| Filters.Sharpen | backend/model.py:82-83 | sharpening keeps height, width and channel count, and every output value is in 0..255 |
| Filters.UniformWindowSum | backend/model.py:83 | over a channel of one value v, the window sum equals v times the sum of the kernel weights |
| Filters.Filter2DKeepsUniformChannel | backend/model.py:83 | a kernel whose weights sum to 1 leaves a uniform uint8 channel unchanged |
| Filters.SharpenKeepsUniformChannel | backend/model.py:82-83 | sharpening leaves a channel of one constant value exactly as it was |
| Filters.WindowSumOfSwapped | backend/model.py:83 | the window sum of channel k of a swapped array equals that of channel 2-k of the original |
| Filters.Filter2DCommutesWithSwap | backend/model.py:83 | filtering then swapping equals swapping then filtering |
| Filters.ScaleAbsValue | backend/model.py:86 | convertScaleAbs on one element always gives a uint8 value |
| Filters.ScaleAbsValueRounds | backend/model.py:86 | for uint8 x the result lies between saturate(floor(1.1x+10)) and saturate(ceil(1.1x+10)); off the .5 cases it equals saturate(round(1.1x+10)) |
| Filters.ScaleAbsValueAtLeastTen | backend/model.py:86 | every uint8 value maps into 10..255 |
| Filters.ScaleAbsValueMonotone | backend/model.py:86 | the map is monotone non-decreasing on uint8 values, under any resolution of the .5 ties |
| Filters.ScaleAbsValueSaturates | backend/model.py:86 | a uint8 value maps to 255 exactly when it is at least 223 |
| Filters.ScaleAbs | backend/model.py:86 | convertScaleAbs on an array keeps the shape, and every value comes out in 10..255 |
| Filters.ScaleAbsCommutesWithSwap | backend/model.py:86 | brightening then swapping equals swapping then brightening |
| Enhancement.ToPixelArray | backend/model.py:104-112 | bytes decode to an array, or fail with DecodeError exactly when PIL cannot open them; a numpy array passes unchanged exactly when Image.fromarray accepts its shape, and otherwise fails with UnsupportedArray; a PIL image gives its pixels; every result is a uint8 array PIL can take |
| Enhancement.BasicEnhance | backend/model.py:69-92 | the fallback keeps the input's shape and makes every value at least 10; on an H×W×3 array it succeeds exactly when the array is not empty; its only failure is OpenCvError, from cvtColor on an empty colour array or the denoiser's rejection |
| Enhancement.FallbackWorksInCallerOrder | backend/model.py:69-92 | for a non-empty H×W×3 array, the fallback equals sharpen and brighten applied in the caller's channel order to the denoised image swapped back |
| Enhancement.FallbackSharpenKeepsSolidColour | backend/model.py:79-83 | when the denoised image is one solid colour, the sharpening step returns that same colour everywhere |
| Enhancement.TryRestore | backend/model.py:115-136 | the restorer attempt fails on an empty 3-channel input and whenever the restorer raises; a 3-channel input gives a non-empty 3-channel result; every result is a uint8 array PIL can take |
| Enhancement.PrimaryReturnsCallerOrder | backend/model.py:118-133 | for an input that is not an empty colour array: if the restorer returns an image of the input's shape, the result is that image converted back; with a restorer that changes nothing, the result is the input itself |
| Enhancement.Enhanced | backend/model.py:94-145 | a normalisation error is returned as is; an empty 3-channel input gives OpenCvError, any other 3-channel input a non-empty 3-channel result; every result is an array PIL can take |
| Enhancement.DegradedUsesFallback | backend/model.py:142-145 | with no handle the result is the fallback applied to the array as decoded |
| Enhancement.RestorerFailureFallsBack | backend/model.py:138-145 | when the restorer raises, the result is the fallback applied to the original, unswapped array |
| Enhancement.RestorerSuccessIsServed | backend/model.py:115-136 | when the attempt succeeds, its channel-restored output is the result |
| Enhancement.DegradedKeepsSize | tests/backend/test_model.py:59-69 | with no handle, an H×W×3 input gives a result exactly when it is not empty, and that result has the same height and width |
| Enhancement.FacialEnhancementModel.Enhance | backend/model.py:94-145 | the result is Enhanced of the current handle, and the method assigns no field |
| Enhancement.FacialEnhancementModel.Call | backend/model.py:147-157 | `__call__` returns exactly what `enhance` returns |
| Enhancement.RetryAfterRestorerFailure | backend/model.py:138-140 | after a call whose restorer attempt raised, which falls back, the handle is still present, and the next call is served by the restorer |

## Left out

- Logging and the module-level `print` are not modelled. They have no effect on results.
- Enhancement.ToPixelArray: numpy inputs are limited to rank 2 or 3. `Image.fromarray` reads a rank-1 array as a one-pixel-wide greyscale image and rejects rank 4 or more; neither case is modelled.
- The model covers uint8 arrays only. It does not model other numpy dtypes, which `Image.fromarray` maps to other modes.
- PIL decoding is a parameter, not an implementation. Its lazy loading, the image modes it produces and `Image.fromarray` on the output are abstracted to shape checks.
- `cv2.cvtColor` is modelled only on 3-channel arrays. On a restorer output that is not 3-channel, the conversion is treated as raising, which sends the request to the fallback. OpenCV's handling of 4-channel input there is not modelled.
- The internals of `fastNlMeansDenoisingColored` are not modelled. They are replaced by a shape-preserving oracle that may reject arrays that are not 3-channel.
- The internals of GFPGAN are not modelled: face detection, alignment, restoration and paste-back. They are an oracle that may fail.
- Filters.ScaleAbsValue: float rounding of exact .5 cases is not computed. It is a per-value tie rule, and only floor/ceiling bounds are proved for those inputs.
- Filters.Sharpen: the border rule is a parameter, because the source does not state one. The pipeline uses reflect-101, OpenCV's default for `filter2D`.
- Timing metadata, the path tag of an outcome, and the HTTP, UI and serialisation layers lie outside `backend/model.py` or are not returned by `enhance`. backend/app.py and frontend/streamlit_app.py are not part of this model.
- Concurrency and a sticky degraded state are not modelled, because neither exists in the code.
- `preprocess` and `postprocess`, which tests/backend/test_model.py:34-57 call, do not exist in backend/model.py and are not modelled.
