/**
 * The platform's location `Criteria` object, as far as the location service uses it:
 * an overall accuracy, a horizontal and a vertical accuracy, a power requirement and
 * four boolean flags. The platform's numeric constants are not part of this model, so
 * each setting is a symbolic enumeration. A freshly constructed `Criteria` has no
 * requirement on accuracy or power, so each enumeration includes the platform's
 * NO_REQUIREMENT value, and that is what a new object holds.
 */
module PlatformCriteria {

  /** Overall accuracy (NO_REQUIREMENT / ACCURACY_FINE / ACCURACY_COARSE). */
  datatype Accuracy = AccuracyNoRequirement | Fine | Coarse

  /** Horizontal and vertical accuracy (NO_REQUIREMENT / ACCURACY_LOW / ACCURACY_MEDIUM / ACCURACY_HIGH). */
  datatype AccuracyLevel = LevelNoRequirement | Low | Medium | High

  /**
   * Power requirement (POWER_LOW / POWER_MEDIUM / NO_REQUIREMENT). POWER_HIGH is never
   * assigned by the service and is not modelled.
   */
  datatype Power = PowerLow | PowerMedium | NoRequirement

  /** The value of every field of a `Criteria` object at one moment. */
  datatype CriteriaFields = CriteriaFields(
    accuracy: Accuracy,
    horizontalAccuracy: AccuracyLevel,
    verticalAccuracy: AccuracyLevel,
    powerRequirement: Power,
    altitudeRequired: bool,
    bearingRequired: bool,
    speedRequired: bool,
    costAllowed: bool)

  /** Ordinal of a horizontal/vertical accuracy level: no requirement below every named level. */
  function LevelRank(level: AccuracyLevel): nat
  {
    match level
    case LevelNoRequirement => 0
    case Low => 1
    case Medium => 2
    case High => 3
  }

  /** How loose a power requirement is: LOW is the tightest, NO_REQUIREMENT the loosest. */
  function PowerLooseness(power: Power): nat
  {
    match power
    case PowerLow => 1
    case PowerMedium => 2
    case NoRequirement => 3
  }

  /**
   * A mutable criteria object. Each field is plain storage: it holds the last value
   * assigned to it. The constructor puts no requirement on accuracy or power; it promises
   * nothing about the four flags, whose fresh values are the platform's, so a caller that
   * needs them must assign them.
   */
  class Criteria {
    var accuracy: Accuracy
    var horizontalAccuracy: AccuracyLevel
    var verticalAccuracy: AccuracyLevel
    var powerRequirement: Power
    var altitudeRequired: bool
    var bearingRequired: bool
    var speedRequired: bool
    var costAllowed: bool

    constructor ()
      ensures accuracy == AccuracyNoRequirement
      ensures horizontalAccuracy == LevelNoRequirement && verticalAccuracy == LevelNoRequirement
      ensures powerRequirement == NoRequirement
    {
      accuracy := AccuracyNoRequirement;
      horizontalAccuracy := LevelNoRequirement;
      verticalAccuracy := LevelNoRequirement;
      powerRequirement := NoRequirement;
    }

    /** The current value of every field. */
    function Fields(): CriteriaFields
      reads this
    {
      CriteriaFields(accuracy, horizontalAccuracy, verticalAccuracy, powerRequirement,
                     altitudeRequired, bearingRequired, speedRequired, costAllowed)
    }
  }
}
