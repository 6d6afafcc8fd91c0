/**
 * The rule that turns the classifier's top label into a recyclability
 * verdict (`checkRecyclability(for:)` in ContentView.swift): the label is
 * lower-cased and compared with three fixed keys.
 */
module Recyclability {
  import opened Text

  const RecyclableText := "Recyclability: Recyclable"
  const CheckGuidelinesText := "Recyclability: Check local guidelines"
  const UnknownText := "Recyclability: Unknown"

  datatype Verdict = Recyclable | CheckLocalGuidelines | Unknown

  /** The three texts the recyclability label can show. */
  predicate IsCaption(s: string) {
    s == RecyclableText || s == CheckGuidelinesText || s == UnknownText
  }

  /** The text shown for a verdict; different verdicts read differently. */
  function Caption(v: Verdict): (r: string)
    ensures IsCaption(r)
  {
    match v
    case Recyclable => RecyclableText
    case CheckLocalGuidelines => CheckGuidelinesText
    case Unknown => UnknownText
  }

  /** Different verdicts are shown as different texts. */
  lemma CaptionInjective(v: Verdict, w: Verdict)
    ensures Caption(v) == Caption(w) ==> v == w
  {
  }

  /** The switch on the lower-cased label; every other label is Unknown. */
  function VerdictFor(item: string): Verdict {
    var lowered := Lowercase(item);
    if lowered == "paper" then Recyclable
    else if lowered == "metal" then Recyclable
    else if lowered == "plastic" then CheckLocalGuidelines
    else Unknown
  }

  /** The same rules as a table from normalised label to verdict. */
  const Rules: map<string, Verdict> :=
    map["paper" := Recyclable, "metal" := Recyclable, "plastic" := CheckLocalGuidelines]

  /** The switch agrees with the table, with Unknown for every label the table lacks. */
  lemma VerdictFollowsRules(item: string)
    ensures VerdictFor(item) == if Lowercase(item) in Rules then Rules[Lowercase(item)] else Unknown
  {
  }

  /** The verdict ignores case: a label and its lower-cased form get the same verdict. */
  lemma CaseInsensitive(item: string)
    ensures VerdictFor(Lowercase(item)) == VerdictFor(item)
  {
    LowercaseIdempotent(item);
  }

  /** Recyclable exactly for "paper" and "metal", written in any case. */
  lemma RecyclableIff(item: string)
    ensures VerdictFor(item) == Recyclable <==> CaseVariantOf(item, "paper") || CaseVariantOf(item, "metal")
  {
    LowercaseIsKey(item, "paper");
    LowercaseIsKey(item, "metal");
  }

  /** Check local guidelines exactly for "plastic", written in any case. */
  lemma CheckGuidelinesIff(item: string)
    ensures VerdictFor(item) == CheckLocalGuidelines <==> CaseVariantOf(item, "plastic")
  {
    LowercaseIsKey(item, "paper");
    LowercaseIsKey(item, "metal");
    LowercaseIsKey(item, "plastic");
  }

  /** Unknown exactly for the labels that spell none of the three keys. */
  lemma UnknownIff(item: string)
    ensures VerdictFor(item) == Unknown <==>
      !CaseVariantOf(item, "paper") && !CaseVariantOf(item, "metal") && !CaseVariantOf(item, "plastic")
  {
    RecyclableIff(item);
    CheckGuidelinesIff(item);
  }

  /** A label the classifier capitalises, such as "Plastic", still matches its key. */
  lemma CapitalisedPlastic()
    ensures VerdictFor("Plastic") == CheckLocalGuidelines
  {
    CheckGuidelinesIff("Plastic");
  }

  /** "Glass" matches none of the keys. */
  lemma GlassIsUnknown()
    ensures VerdictFor("Glass") == Unknown
  {
    UnknownIff("Glass");
    assert "Glass"[0] == 'G';
  }
}
