# RGB pixel numeric traits and the binary shape opening filter

This project models two parts of ITK's image pipeline in Dafny and proves
properties of them.

- **Numeric traits of `RGBPixel<T>`** (module `NumericTraitsRGB`,
  `numeric_traits.dfy`). A pixel is the value `RGB(r, g, b)`. The traits of
  the component type `T` are a record `ScalarTraits<T>`: max, min,
  nonpositive min, zero, one, and the signed/integer/complex facts. Every
  bound and identity of the pixel type is the element value filled into all
  three channels. The one-argument overloads ignore their argument. The four
  sign predicates ask the luminance type's predicate about the pixel's
  luminance. The length is fixed at 3. `SetLength` fails on any other length
  and leaves the pixel as it was; on 3 it zero-fills. `AssignToArray` copies
  the three channels into positions 0..2 of an array and writes nothing else.
- **Region bookkeeping** (module `ImageRegion`, `image_region.dfy`). A
  `Region` is an index/size box with non-negative sizes. An `Image` object
  holds its largest possible region and its requested region.
- **`BinaryShapeOpeningImageFilter`** (module `BinaryShapeOpening`,
  `binary_shape_opening.dfy`). This is a class with the filter's six
  parameters, its work-unit count, its input and its output. It covers:
  - the constructor's defaults;
  - the "whole image" region policy for input and output;
  - `GenerateData`, which builds the mini-pipeline of four stages. The stages
    are labelizer, valuator, opening and binarizer. `GenerateData` is proved
    equal to the pure description `Configure`.

  Lemmas about `Configure` state:
  - the stage order and how the stages are chained;
  - the graft of the output from the last stage;
  - the parameters forwarded to each stage;
  - the two valuator compute flags chosen from the attribute;
  - the progress weights 0.3/0.3/0.2/0.2, which sum to 1 and whose
    cumulative values 0.3, 0.6, 0.8, 1.0 never decrease.

Some parts are inputs to the model rather than definitions in it:
- The luminance of a pixel is a function parameter `lum`.
- The sign predicates of the luminance type are a `LuminanceTraits` record.
- The work-unit count the filter starts with is a constructor parameter.

## Model

| member | source | states |
|---|---|---|
| NumericTraitsRGB.Fill | Modules/Core/Common/include/itkNumericTraitsRGBPixel.h:88 | the filled pixel holds the given value in each of its three channels |
| NumericTraitsRGB.Max | Modules/Core/Common/include/itkNumericTraitsRGBPixel.h:97-101 | every channel of the pixel maximum is the element type's maximum |
| NumericTraitsRGB.Min | Modules/Core/Common/include/itkNumericTraitsRGBPixel.h:103-107 | every channel of the pixel minimum is the element type's minimum |
| NumericTraitsRGB.NonpositiveMin | Modules/Core/Common/include/itkNumericTraitsRGBPixel.h:109-113 | every channel is the element type's most negative value |
| NumericTraitsRGB.ZeroValue | Modules/Core/Common/include/itkNumericTraitsRGBPixel.h:115-119 | every channel is the element zero |
| NumericTraitsRGB.OneValue | Modules/Core/Common/include/itkNumericTraitsRGBPixel.h:121-125 | every channel is the element one |
| NumericTraitsRGB.MaxOf | Modules/Core/Common/include/itkNumericTraitsRGBPixel.h:85-89 | whatever pixel it is given, every channel is the element maximum |
| NumericTraitsRGB.MinOf | Modules/Core/Common/include/itkNumericTraitsRGBPixel.h:91-95 | whatever pixel it is given, every channel is the element minimum |
| NumericTraitsRGB.NonpositiveMinOf | Modules/Core/Common/include/itkNumericTraitsRGBPixel.h:127-131 | equals the argument-free NonpositiveMin for any argument: every channel is the element's most negative value |
| NumericTraitsRGB.ZeroValueOf | Modules/Core/Common/include/itkNumericTraitsRGBPixel.h:133-137 | equals the argument-free ZeroValue for any argument: every channel is the element zero |
| NumericTraitsRGB.OneValueOf | Modules/Core/Common/include/itkNumericTraitsRGBPixel.h:139-143 | equals the argument-free OneValue for any argument: every channel is the element one |
| NumericTraitsRGB.OverloadsIgnoreArgument | Modules/Core/Common/include/itkNumericTraitsRGBPixel.h:85-143 | each one-argument overload equals its argument-free form, and that form is the element value filled into all channels |
| NumericTraitsRGB.IsPositive | Modules/Core/Common/include/itkNumericTraitsRGBPixel.h:146-150 | true exactly when the luminance type calls the pixel's luminance positive |
| NumericTraitsRGB.IsNonpositive | Modules/Core/Common/include/itkNumericTraitsRGBPixel.h:152-157 | true exactly when the luminance is nonpositive for the luminance type |
| NumericTraitsRGB.IsNegative | Modules/Core/Common/include/itkNumericTraitsRGBPixel.h:159-164 | true exactly when the luminance is negative for the luminance type |
| NumericTraitsRGB.IsNonnegative | Modules/Core/Common/include/itkNumericTraitsRGBPixel.h:166-171 | true exactly when the luminance is nonnegative for the luminance type |
| NumericTraitsRGB.SignDependsOnlyOnLuminance | Modules/Core/Common/include/itkNumericTraitsRGBPixel.h:146-171 | two pixels of equal luminance get the same answer from all four sign predicates, whatever their channels |
| NumericTraitsRGB.IsSigned | Modules/Core/Common/include/itkNumericTraitsRGBPixel.h:173 | the pixel type is signed exactly when its component type is |
| NumericTraitsRGB.IsInteger | Modules/Core/Common/include/itkNumericTraitsRGBPixel.h:174 | the pixel type is integral exactly when its component type is |
| NumericTraitsRGB.IsComplex | Modules/Core/Common/include/itkNumericTraitsRGBPixel.h:175 | the pixel type is complex exactly when its component type is |
| NumericTraitsRGB.GetLength | Modules/Core/Common/include/itkNumericTraitsRGBPixel.h:191-196 | the length of any pixel is 3 |
| NumericTraitsRGB.GetLengthOfType | Modules/Core/Common/include/itkNumericTraitsRGBPixel.h:198-203 | the length of the pixel type is 3 |
| NumericTraitsRGB.SetLength | Modules/Core/Common/include/itkNumericTraitsRGBPixel.h:177-189 | a length other than 3 raises a size-mismatch error and returns the pixel unchanged; length 3 succeeds and makes every channel the element zero |
| NumericTraitsRGB.SetLengthMatchesGetLength | Modules/Core/Common/include/itkNumericTraitsRGBPixel.h:177-203 | SetLength succeeds if and only if the requested length is GetLength's value; success yields the pixel zero; the length stays 3 |
| NumericTraitsRGB.SetLengthIdempotent | Modules/Core/Common/include/itkNumericTraitsRGBPixel.h:180-189 | setting the length to 3 twice gives the same outcome as once |
| NumericTraitsRGB.AssignToMeasurementVector | Modules/Core/Common/include/itkNumericTraitsRGBPixel.h:205-209 | the measurement vector receives every channel of the pixel, so it equals the pixel |
| NumericTraitsRGB.AssignToArray | Modules/Core/Common/include/itkNumericTraitsRGBPixel.h:211-219 | positions 0, 1 and 2 of the array hold the pixel's channels; every other position keeps its old value |
| ImageRegion.Image.SetRequestedRegion | Modules/Filtering/LabelMap/include/itkBinaryShapeOpeningImageFilter.hxx:47 | the requested region becomes the given region; the largest possible region is unchanged |
| BinaryShapeOpening.BinaryShapeOpeningImageFilter.constructor | Modules/Filtering/LabelMap/include/itkBinaryShapeOpeningImageFilter.hxx:25-34 | defaults: background is the pixel type's nonpositive minimum, foreground its maximum, not fully connected, not reversed, lambda 0, attribute number of pixels; no input yet, and a fresh output with empty regions |
| BinaryShapeOpening.BinaryShapeOpeningImageFilter.GenerateInputRequestedRegion | Modules/Filtering/LabelMap/include/itkBinaryShapeOpeningImageFilter.hxx:36-49 | with an input, its requested region becomes its largest possible region, which is unchanged; an input already requested in full stays as it was; with no input nothing changes |
| BinaryShapeOpening.BinaryShapeOpeningImageFilter.EnlargeOutputRequestedRegion | Modules/Filtering/LabelMap/include/itkBinaryShapeOpeningImageFilter.hxx:51-56 | the output's requested region becomes its largest possible region, which is unchanged; on an output already requested in full it changes nothing (idempotent) |
| BinaryShapeOpening.BinaryShapeOpeningImageFilter.GenerateData | Modules/Filtering/LabelMap/include/itkBinaryShapeOpeningImageFilter.hxx:58-110 | the mini-pipeline built step by step equals Configure applied to the current parameters and work-unit count |
| BinaryShapeOpening.Configure | Modules/Filtering/LabelMap/include/itkBinaryShapeOpeningImageFilter.hxx:70-109 | the mini-pipeline has four stages and the filter's output is grafted from the last one |
| BinaryShapeOpening.StageOrder | Modules/Filtering/LabelMap/include/itkBinaryShapeOpeningImageFilter.hxx:70-105 | the stages are labelizer, valuator, opening, binarizer in that order |
| BinaryShapeOpening.Chained | Modules/Filtering/LabelMap/include/itkBinaryShapeOpeningImageFilter.hxx:71-109 | the first stage reads the filter's input; each later stage reads the previous stage's output; the output comes from the last stage |
| BinaryShapeOpening.ParametersForwarded | Modules/Filtering/LabelMap/include/itkBinaryShapeOpeningImageFilter.hxx:70-105 | the labelizer gets foreground, background and connectivity; the opening gets lambda, ordering and attribute; the binarizer gets foreground, background and the filter's input as background image |
| BinaryShapeOpening.WorkUnitsForwarded | Modules/Filtering/LabelMap/include/itkBinaryShapeOpeningImageFilter.hxx:75-104 | every stage gets the filter's work-unit count |
| BinaryShapeOpening.PerimeterSelection | Modules/Filtering/LabelMap/include/itkBinaryShapeOpeningImageFilter.hxx:81-84 | the valuator is left at its perimeter default if and only if the attribute is perimeter or roundness; otherwise perimeter computation is off |
| BinaryShapeOpening.FeretDiameterSelection | Modules/Filtering/LabelMap/include/itkBinaryShapeOpeningImageFilter.hxx:85-88 | Feret-diameter computation is switched on for the Feret-diameter attribute and left at the valuator's default if and only if the attribute is another one |
| BinaryShapeOpening.Weights | Modules/Filtering/LabelMap/include/itkBinaryShapeOpeningImageFilter.hxx:76-105 | the weight list has one entry per stage, each the weight that stage was registered with |
| BinaryShapeOpening.PrefixSumMonotone | Modules/Filtering/LabelMap/include/itkBinaryShapeOpeningImageFilter.hxx:76-105 | the accumulated weight after more completed stages is never smaller |
| BinaryShapeOpening.ProgressWeights | Modules/Filtering/LabelMap/include/itkBinaryShapeOpeningImageFilter.hxx:76-105 | the weights are 0.3, 0.3, 0.2, 0.2; cumulative progress is 0.3, 0.6, 0.8, 1.0, so the weights sum to one |
| BinaryShapeOpening.ProgressNonDecreasing | Modules/Filtering/LabelMap/include/itkBinaryShapeOpeningImageFilter.hxx:76-105 | the progress after completed stages lies in [0, 1] and does not decrease as stages complete |

## Left out

- In-place update of `SetLength`. The source mutates the pixel through a reference. The model is a function that returns the pixel state after the call and the error, if any. The thrown exception becomes the `SizeMismatch` error value.
- `AssignToArray`: the model writes into an `array<T>` of the component type. A conversion from `T` to another array element type is not modelled. The method requires at least three array elements, because the source indexes `mv[0..2]` without any check.
- The luminance of a pixel. It is a weighting of the channels whose definition is not part of this model, so it is a function parameter.
- The derived type aliases (`AbsType`, `AccumulateType`, `FloatType`, `PrintType`, `RealType`, `ScalarRealType`, `MeasurementVectorType`). They are type-level only, with no values or behaviour to state.
- The static `Zero`/`One` members. They are declared here but defined in a file that is not part of this model.
- The superclass's `GenerateInputRequestedRegion`. It lives in a file that is not part of this model. Its effect on the single input is overwritten by this filter's own assignment.
- `EnlargeOutputRequestedRegion`'s `DataObject *` argument. The source ignores it, so the model has no parameter.
- `AllocateOutputs`, the progress accumulator's internals, and the stage algorithms: labeling, attribute valuation, opening and binarizing. These live in files not part of this model. Stages are opaque records of the settings this filter gives them.
- Grafting and smart-pointer ownership. These are recorded only as "the output comes from the last stage" (`graftedFrom`). The binarizer's early graft of the filter's output buffer is not modelled.
- The valuator's own defaults for perimeter and Feret-diameter computation. They are defined outside this file, so they are parameters of `PerimeterSelection` and `FeretDiameterSelection`.
- Attribute codes. Only the four attributes this filter tests are named; any other attribute is `OtherAttribute(code)`, whose code stands only for the other attributes, never for one of the four named ones. The model does not enforce this.
- Progress weights. They are exact tenths; the source registers the single-precision floats `.3f` and `.2f`, whose rounding is not modelled.
- `Lambda`. It is an exact real in place of a double.
- `PrintSelf`. It is stream output.
- Work-unit multithreading. It is concurrency.
