/** The five CO2 bands that the firmware, the server and the scripts all use:
    below 400 ppm, below 600, below 1000, below 1500, and 1500 or more. Every
    classifier of the system is proved against this one definition. */
module AirQuality {
  import opened Common

  datatype Level = Excellent | Good | Medium | Bad | Danger

  /** The band of a reading. */
  function Classify(ppm: real): Level
  {
    if ppm < 400.0 then Excellent
    else if ppm < 600.0 then Good
    else if ppm < 1000.0 then Medium
    else if ppm < 1500.0 then Bad
    else Danger
  }

  /** Worse air has a higher rank. */
  function Rank(l: Level): nat
  {
    match l
    case Excellent => 0
    case Good => 1
    case Medium => 2
    case Bad => 3
    case Danger => 4
  }

  /** Inclusive lower bound of a band (none for the lowest). */
  function LowerBound(l: Level): Option<real>
  {
    match l
    case Excellent => None
    case Good => Some(400.0)
    case Medium => Some(600.0)
    case Bad => Some(1000.0)
    case Danger => Some(1500.0)
  }

  /** Exclusive upper bound of a band (none for the highest). */
  function UpperBound(l: Level): Option<real>
  {
    match l
    case Excellent => Some(400.0)
    case Good => Some(600.0)
    case Medium => Some(1000.0)
    case Bad => Some(1500.0)
    case Danger => None
  }

  predicate InBand(ppm: real, l: Level)
  {
    (LowerBound(l).None? || LowerBound(l).value <= ppm) &&
    (UpperBound(l).None? || ppm < UpperBound(l).value)
  }

  /** A reading is classified into a band exactly when it lies inside it. */
  lemma ClassifyInBand(ppm: real, l: Level)
    ensures Classify(ppm) == l <==> InBand(ppm, l)
  {
  }

  /** More CO2 never gives a better band. */
  lemma ClassifyMonotone(a: real, b: real)
    requires a <= b
    ensures Rank(Classify(a)) <= Rank(Classify(b))
  {
  }

  /** The upper-case French labels of the firmware and the test client. */
  function FrenchLabel(l: Level): string
  {
    match l
    case Excellent => "EXCELLENT"
    case Good => "BON"
    case Medium => "MOYEN"
    case Bad => "MAUVAIS"
    case Danger => "DANGER"
  }

  /** The lower-case English tags of the demo-data generator. */
  function EnglishTag(l: Level): string
  {
    match l
    case Excellent => "excellent"
    case Good => "good"
    case Medium => "medium"
    case Bad => "bad"
    case Danger => "danger"
  }
}
