/**
 * The two lookup tables that turn the vision collaborator's five-level
 * likelihood strings into embedding dimensions.
 */
module Likelihood {
  import opened Wrappers

  /** The five likelihood levels, from least to most likely. */
  datatype Level = VeryUnlikely | Unlikely | Possible | Likely | VeryLikely

  function Rank(l: Level): nat {
    match l
    case VeryUnlikely => 0
    case Unlikely => 1
    case Possible => 2
    case Likely => 3
    case VeryLikely => 4
  }

  /** The string the vision collaborator uses for each level. */
  function Name(l: Level): string {
    match l
    case VeryUnlikely => "VERY_UNLIKELY"
    case Unlikely => "UNLIKELY"
    case Possible => "POSSIBLE"
    case Likely => "LIKELY"
    case VeryLikely => "VERY_LIKELY"
  }

  const EmotionTable: map<string, real> := map[
    "VERY_LIKELY" := 0.9,
    "LIKELY" := 0.7,
    "POSSIBLE" := 0.4,
    "UNLIKELY" := 0.1,
    "VERY_UNLIKELY" := 0.0]

  const QualityTable: map<string, real> := map[
    "VERY_LIKELY" := 0.1,
    "LIKELY" := 0.3,
    "POSSIBLE" := 0.5,
    "UNLIKELY" := 0.8,
    "VERY_UNLIKELY" := 1.0]

  /** True when the string is one of the five level names. */
  predicate IsLevelName(likelihood: Option<string>) {
    likelihood.Some? && likelihood.value in EmotionTable.Keys
  }

  /**
   * `mapping[likelihood] || fallback`: the table entry, unless the key is
   * missing or absent or its entry is falsy (0), in which case the fallback.
   */
  function LookupOr(table: map<string, real>, likelihood: Option<string>, fallback: real): real {
    match likelihood
    case None => fallback
    case Some(key) => if key in table && table[key] != 0.0 then table[key] else fallback
  }

  /** `emotionalLikelihoodToNumber`. */
  function EmotionalLikelihoodToNumber(likelihood: Option<string>): (r: real)
    ensures 0.0 <= r <= 0.9
    ensures !IsLevelName(likelihood) ==> r == 0.0
  {
    LookupOr(EmotionTable, likelihood, 0.0)
  }

  /** `qualityLikelihoodToNumber`. */
  function QualityLikelihoodToNumber(likelihood: Option<string>): (r: real)
    ensures 0.1 <= r <= 1.0
    ensures !IsLevelName(likelihood) ==> r == 0.5
  {
    LookupOr(QualityTable, likelihood, 0.5)
  }

  /** An emotion dimension grows strictly with the likelihood of the emotion. */
  lemma EmotionIncreasing(a: Level, b: Level)
    requires Rank(a) < Rank(b)
    ensures EmotionalLikelihoodToNumber(Some(Name(a))) < EmotionalLikelihoodToNumber(Some(Name(b)))
  {
  }

  /** A quality dimension shrinks strictly as the likelihood of the defect grows. */
  lemma QualityDecreasing(a: Level, b: Level)
    requires Rank(a) < Rank(b)
    ensures QualityLikelihoodToNumber(Some(Name(a))) > QualityLikelihoodToNumber(Some(Name(b)))
  {
  }

  /** The ends of both tables. */
  lemma TableEnds()
    ensures EmotionalLikelihoodToNumber(Some(Name(VeryUnlikely))) == 0.0
    ensures EmotionalLikelihoodToNumber(Some(Name(VeryLikely))) == 0.9
    ensures QualityLikelihoodToNumber(Some(Name(VeryUnlikely))) == 1.0
    ensures QualityLikelihoodToNumber(Some(Name(VeryLikely))) == 0.1
  {
  }
}
