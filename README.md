# WasteClassifier: recyclability verdict and label bookkeeping

WasteClassifier is a small iOS app. The user picks a photo, and a CoreML
image classifier, run through Apple's Vision framework, labels it. The app
shows two texts: a prediction label and a recyclability label. The only
logic in the app is in `ContentView.swift`:

- `checkRecyclability(for:)` lower-cases the classifier's label. It maps
  "paper" and "metal" to "Recyclability: Recyclable" and "plastic" to
  "Recyclability: Check local guidelines". Every other label gets
  "Recyclability: Unknown".
- `classifyImage()` decides what both labels show. It has one path for
  each way the frameworks can answer: no image picked, conversion to a
  `CIImage` failed, no classification results, the request threw, and
  success. On success only the first observation is used.

The project has four modules:

- `Wrappers` (`wrappers.dfy`): `Option`, for Swift's optionals.
- `Text` (`text.dfy`): ASCII lower-casing, and the decimal form of an integer
  used in the success text. Lower-casing comes with lemmas saying it is
  idempotent and exactly which strings lower-case to a given key. The decimal
  form comes with a round-trip lemma.
- `Recyclability` (`recyclability.dfy`): the verdict switch `VerdictFor`, with
  the texts it shows and the same rules written as a table (`Rules`). It also
  has lemmas saying exactly which labels get each verdict.
- `Classifier` (`classifier.dfy`): the class `ContentView`, holding the picked
  image and the two `@State` labels, with one method per operation.
  - The frameworks' answer is an input value, `Inference`. The possible
    answers are: conversion fails, perform throws, or the request completes
    with results. The results are `None` when they are not classification
    observations.
  - `Classify` is the specification function. `ClassifyImage` is proved equal
    to it.
  - Lemmas about `Classify` state each path's labels, that only the top
    observation matters, that a failure can be told apart from a success,
    and idempotence.
  - The object invariant `Valid()` says the recyclability label is always one
    of the three verdict texts. The constructor establishes it and every
    method keeps it.

A failed classification is not an error value. Each failure writes its own
message into the prediction label and "Recyclability: Unknown" into the
recyclability label. `FailureIsDistinguishable` proves that the prediction
label alone tells a failure from a successful Unknown verdict.

Two functions only compute and carry no contract of their own, so they have no
row in the table below. `Recyclability.VerdictFor` is the switch at
ContentView.swift:129-137; `RecyclableIff`, `CheckGuidelinesIff`, `UnknownIff`,
`CaseInsensitive` and `VerdictFollowsRules` state what it does.
`Classifier.PredictionText` is the success text at ContentView.swift:113;
`PredictionTextIsNoFailure` and `OnlyTopObservationCounts` state what is
proved about it.

## Model

| member | source | states |
|---|---|---|
| `Text.Lowercase` | ContentView.swift:129 | lower-casing keeps the length and lower-cases each character in place, and no upper-case letter is left |
| `Text.LowercaseIdempotent` | ContentView.swift:129 | lower-casing an already lower-cased label changes nothing |
| `Text.LowercaseIsKey` | ContentView.swift:129-135 | a label lower-cases to a lower-case key exactly when it spells that key with each letter in either case |
| `Text.NatText` | ContentView.swift:113 | the decimal form of a natural number is non-empty, is all digits, and has no leading zero |
| `Text.IntText` | ContentView.swift:113 | the decimal form of the confidence percentage has a '-' first exactly for negative numbers, has no leading zero, and its digits read back as the number |
| `Text.NatTextRoundTrip` | ContentView.swift:113 | the digits written for a number denote that number |
| `Recyclability.Caption` | ContentView.swift:130-137 | every verdict is shown as one of the three recyclability texts |
| `Recyclability.CaptionInjective` | ContentView.swift:130-137 | different verdicts are shown as different texts |
| `Recyclability.VerdictFollowsRules` | ContentView.swift:128-138 | the switch gives the table's verdict for the lower-cased label, and Unknown for any label not in the table |
| `Recyclability.CaseInsensitive` | ContentView.swift:128-138 | a label and its lower-cased form get the same verdict |
| `Recyclability.RecyclableIff` | ContentView.swift:130-133 | the verdict is Recyclable exactly when the label spells "paper" or "metal" in any case |
| `Recyclability.CheckGuidelinesIff` | ContentView.swift:134-135 | the verdict is Check local guidelines exactly when the label spells "plastic" in any case |
| `Recyclability.UnknownIff` | ContentView.swift:136-137 | the verdict is Unknown exactly when the label spells none of the three keys |
| `Recyclability.CapitalisedPlastic` | ContentView.swift:134-135 | the capitalised label "Plastic" gets Check local guidelines |
| `Recyclability.GlassIsUnknown` | ContentView.swift:136-137 | the label "Glass" gets Unknown |
| `Classifier.Classify` | ContentView.swift:93-125 | a picked image always leaves one of the three verdict texts in the recyclability label, and without one a valid label stays valid |
| `Classifier.PredictionTextIsNoFailure` | ContentView.swift:113 | the success text is never a failure message and never the initial prompt |
| `Classifier.NoImageKeepsLabels` | ContentView.swift:94 | with no picked image neither label changes, whatever the backend would answer |
| `Classifier.FailureLabels` | ContentView.swift:97-123 | conversion failure, results that are missing or empty, and a throwing perform each give their own message, and all of them give Unknown |
| `Classifier.OnlyTopObservationCounts` | ContentView.swift:105-115 | on success the verdict is the one for the first observation's label, and the observations after it change nothing |
| `Classifier.FailureIsDistinguishable` | ContentView.swift:97-123 | with a picked image, the prediction label is a failure message exactly when no top observation was produced |
| `Classifier.ClassifyIdempotent` | ContentView.swift:93-125 | classifying again with the same image and the same answer leaves the labels as they are |
| `Classifier.PlasticScenario` | ContentView.swift:104-115 | a top observation "Plastic" at 92% gives "Recyclability: Check local guidelines" |
| `Classifier.ContentView.constructor` | ContentView.swift:9-11 | the screen starts with no picked image, the prompt "Select an image to classify" and "Recyclability: Unknown" |
| `Classifier.ContentView.ImagePicked` | ContentView.swift:153-154 | a loaded photo becomes the picked image, and neither label changes |
| `Classifier.ContentView.CheckRecyclability` | ContentView.swift:128-138 | the recyclability label becomes the text of the label's verdict, and the prediction label and picked image are untouched |
| `Classifier.ContentView.ClassifyImage` | ContentView.swift:93-125 | the labels after the call are `Classify` of the picked image, the backend's answer and the labels before, the picked image is unchanged, and the invariant holds |

## Left out

- The SwiftUI `body`, the previews, the photo picker presentation, the picker `Coordinator` and the asynchronous `loadObject` call are UI and framework glue. Only the assignment of the loaded photo to `pickedImage` is modelled, as `ImagePicked`. The displayed `image` copy of the photo is not modelled.
- Loading the CoreML model, converting to `CIImage`, and running `VNCoreMLRequest` and `VNImageRequestHandler` are calls into Apple frameworks. What they produce is the input `Inference`. The photo is an opaque `Picture` handle. A failing model load (`fatalError`) is not modelled.
- The `DispatchQueue.main.async` hand-off is thread marshalling. The success update is modelled as running in sequence within the call. The model and the source part ways on one answer: the completion handler sees results, and then `perform` throws. The source first shows "Error during classification.", and then the queued `DispatchQueue.main.async` block replaces it with the success text and verdict. The model's `PerformThrows` keeps the error text, because each answer takes exactly one path.
- The confidence is a floating-point number. The model takes the percentage `Int(confidence * 100)` as an integer input in `Observation`, and does not model the float multiplication and truncation.
- Text.Lowercase: models ASCII lower-casing only, not Swift's Unicode `lowercased()`. The three keys are plain ASCII. The difference matters only for non-ASCII characters that Unicode lower-cases into ASCII letters. The one such single character we know of is KELVIN SIGN, which becomes 'k', and 'k' is in none of the keys.
- `Item.swift` is a SwiftData record with one timestamp field. The app never reads or writes it, so Item.swift is not part of this model.
