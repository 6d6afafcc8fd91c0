/**
 * The label bookkeeping of the classifier screen (`ContentView` in
 * ContentView.swift): the two labels it shows, the picked image, and what
 * `classifyImage()` writes into the labels on each way the frameworks can
 * answer.
 *
 * The image conversion and the Vision/CoreML request are not modelled; what
 * they produce for the picked image is an input, `Inference`.
 */
module Classifier {
  import opened Wrappers
  import opened Text
  import opened Recyclability

  const InitialPrediction := "Select an image to classify"
  const ConversionErrorText := "Error processing image."
  const NoResultText := "Unable to classify image."
  const PerformErrorText := "Error during classification."

  /** The picked photo, an opaque handle (`UIImage`). */
  datatype Picture = Picture(handle: nat)

  /** One classification observation: its label and its confidence as a whole percentage. */
  datatype Observation = Observation(identifier: string, percent: int)

  /**
   * How the frameworks answer for the picked image: the photo cannot be
   * turned into a `CIImage`; performing the request throws; or the request
   * completes with its results, `None` when they are not classification
   * observations, and ranked by confidence otherwise.
   */
  datatype Inference =
    | ConversionFails
    | PerformThrows
    | Completed(results: Option<seq<Observation>>)

  /** What the screen shows: the prediction label and the recyclability label. */
  datatype Labels = Labels(prediction: string, recyclability: string)

  /** The prediction label written for the top observation. */
  function PredictionText(top: Observation): string {
    "Prediction: " + top.identifier + " with confidence " + IntText(top.percent) + "%"
  }

  predicate IsFailureMessage(s: string) {
    s == ConversionErrorText || s == NoResultText || s == PerformErrorText
  }

  /** The inference produced a top observation. */
  predicate Succeeded(inference: Inference) {
    inference.Completed? && inference.results.Some? && inference.results.value != []
  }

  /**
   * The labels after `classifyImage()`, from the picked image, the answer of
   * the frameworks and the labels before the call.
   */
  function Classify(picked: Option<Picture>, inference: Inference, before: Labels): (after: Labels)
    ensures IsCaption(before.recyclability) ==> IsCaption(after.recyclability)
    ensures picked.Some? ==> IsCaption(after.recyclability)
  {
    if picked.None? then before
    else match inference
      case ConversionFails => Labels(ConversionErrorText, UnknownText)
      case PerformThrows => Labels(PerformErrorText, UnknownText)
      case Completed(results) =>
        if results.None? || results.value == [] then Labels(NoResultText, UnknownText)
        else
          var top := results.value[0];
          Labels(PredictionText(top), Caption(VerdictFor(top.identifier)))
  }

  /** The success label starts with "Prediction: ", so it is never a failure message. */
  lemma PredictionTextIsNoFailure(top: Observation)
    ensures !IsFailureMessage(PredictionText(top))
    ensures PredictionText(top) != InitialPrediction
  {
    assert PredictionText(top)[0] == 'P';
  }

  /** Without a picked image neither label changes, whatever the frameworks would answer. */
  lemma NoImageKeepsLabels(inference: Inference, before: Labels)
    ensures Classify(None, inference, before) == before
  {
  }

  /** Each failure shows its own message and the Unknown verdict. */
  lemma FailureLabels(p: Picture, before: Labels)
    ensures Classify(Some(p), ConversionFails, before) == Labels(ConversionErrorText, UnknownText)
    ensures Classify(Some(p), Completed(None), before) == Labels(NoResultText, UnknownText)
    ensures Classify(Some(p), Completed(Some([])), before) == Labels(NoResultText, UnknownText)
    ensures Classify(Some(p), PerformThrows, before) == Labels(PerformErrorText, UnknownText)
  {
  }

  /**
   * On success only the first observation counts: the verdict is the one for
   * its label, whatever follows it in the list.
   */
  lemma OnlyTopObservationCounts(p: Picture, top: Observation, rest: seq<Observation>, before: Labels)
    ensures Classify(Some(p), Completed(Some([top] + rest)), before).recyclability == Caption(VerdictFor(top.identifier))
    ensures Classify(Some(p), Completed(Some([top] + rest)), before) == Classify(Some(p), Completed(Some([top])), before)
  {
  }

  /**
   * With a picked image, the prediction label tells a failed classification
   * from a successful one: it is a failure message exactly when no top
   * observation was produced, even when the verdict is Unknown either way.
   */
  lemma FailureIsDistinguishable(p: Picture, inference: Inference, before: Labels)
    ensures IsFailureMessage(Classify(Some(p), inference, before).prediction) <==> !Succeeded(inference)
  {
    if Succeeded(inference) {
      PredictionTextIsNoFailure(inference.results.value[0]);
    }
  }

  /** A second call with the same image and answer changes nothing more. */
  lemma ClassifyIdempotent(picked: Option<Picture>, inference: Inference, before: Labels)
    ensures Classify(picked, inference, Classify(picked, inference, before)) == Classify(picked, inference, before)
  {
  }

  /** A "Plastic" shown at 92% gets the check-local-guidelines verdict. */
  lemma PlasticScenario(p: Picture, before: Labels)
    ensures Classify(Some(p), Completed(Some([Observation("Plastic", 92)])), before).recyclability == CheckGuidelinesText
  {
    CapitalisedPlastic();
  }

  /** The screen's state: the picked image and the two labels. */
  class ContentView {
    var pickedImage: Option<Picture>
    var predictionLabel: string
    var recyclabilityLabel: string

    /** The recyclability label always shows one of the three verdict texts. */
    ghost predicate Valid()
      reads this
    {
      IsCaption(recyclabilityLabel)
    }

    function Shown(): Labels
      reads this
    {
      Labels(predictionLabel, recyclabilityLabel)
    }

    constructor ()
      ensures Valid()
      ensures pickedImage == None
      ensures Shown() == Labels(InitialPrediction, UnknownText)
    {
      pickedImage := None;
      predictionLabel := InitialPrediction;
      recyclabilityLabel := UnknownText;
    }

    /** The picker hands over a loaded photo. */
    method ImagePicked(image: Picture)
      modifies this`pickedImage
      ensures pickedImage == Some(image)
      ensures Shown() == old(Shown())
    {
      pickedImage := Some(image);
    }

    /** Sets the recyclability label from a classifier label; the prediction label is untouched. */
    method CheckRecyclability(item: string)
      modifies this`recyclabilityLabel
      ensures recyclabilityLabel == Caption(VerdictFor(item))
      ensures Valid()
      ensures predictionLabel == old(predictionLabel) && pickedImage == old(pickedImage)
    {
      var lowered := Lowercase(item);
      if lowered == "paper" {
        recyclabilityLabel := RecyclableText;
      } else if lowered == "metal" {
        recyclabilityLabel := RecyclableText;
      } else if lowered == "plastic" {
        recyclabilityLabel := CheckGuidelinesText;
      } else {
        recyclabilityLabel := UnknownText;
      }
    }

    /** Classifies the picked image, writing both labels on every path except "no image picked". */
    method ClassifyImage(inference: Inference)
      requires Valid()
      modifies this`predictionLabel, this`recyclabilityLabel
      ensures Valid()
      ensures Shown() == Classify(pickedImage, inference, old(Shown()))
      ensures pickedImage == old(pickedImage)
    {
      if pickedImage.None? {
        return;
      }
      match inference {
        case ConversionFails =>
          predictionLabel := ConversionErrorText;
          recyclabilityLabel := UnknownText;
        case PerformThrows =>
          predictionLabel := PerformErrorText;
          recyclabilityLabel := UnknownText;
        case Completed(results) =>
          if results.None? || results.value == [] {
            predictionLabel := NoResultText;
            recyclabilityLabel := UnknownText;
            return;
          }
          var top := results.value[0];
          predictionLabel := PredictionText(top);
          CheckRecyclability(top.identifier);
      }
    }
  }
}
