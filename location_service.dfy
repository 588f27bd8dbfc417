/**
 * The location service's mapping from a location-request quality to provider
 * criteria, and the service object whose request quality is fixed to the balanced tier.
 */
module Location {
  import opened PlatformCriteria

  /**
   * The quality of a location request. `Other` stands for any quality value equal to none
   * of the three named constants; its `code` is documentation only, and nothing in the
   * model ties it to the constants' values.
   */
  datatype Quality = LowPower | Balanced | HighAccuracy | Other(code: int)
  {
    /** True for the three qualities the service has a criteria row for. */
    predicate Recognised()
    {
      !Other?
    }
  }

  /**
   * The criteria the service derives from a request quality, as a value. Every flag is
   * cleared whatever the quality; a recognised quality asks for the same horizontal and
   * vertical accuracy and puts a requirement on both accuracies; any other quality leaves
   * the four enumerated settings as a fresh object has them (no requirement on accuracy
   * or power), since the dispatch has no fallback branch.
   */
  function ProviderCriteria(quality: Quality): (c: CriteriaFields)
    ensures !c.altitudeRequired && !c.bearingRequired && !c.speedRequired && !c.costAllowed
    ensures quality.Recognised() ==> c.horizontalAccuracy == c.verticalAccuracy
    ensures quality.Recognised() <==> c.horizontalAccuracy != LevelNoRequirement
    ensures quality.Recognised() <==> c.accuracy != AccuracyNoRequirement
    ensures !quality.Recognised() ==>
              c.accuracy == AccuracyNoRequirement && c.horizontalAccuracy == LevelNoRequirement &&
              c.verticalAccuracy == LevelNoRequirement && c.powerRequirement == NoRequirement
  {
    match quality
    case LowPower =>
      CriteriaFields(Coarse, Low, Low, PowerLow, false, false, false, false)
    case Balanced =>
      CriteriaFields(Fine, Medium, Medium, PowerMedium, false, false, false, false)
    case HighAccuracy =>
      CriteriaFields(Fine, High, High, NoRequirement, false, false, false, false)
    case Other(_) =>
      CriteriaFields(AccuracyNoRequirement, LevelNoRequirement, LevelNoRequirement, NoRequirement,
                     false, false, false, false)
  }

  /**
   * Allocates a criteria object and fills it in for `quality`, field by field: the
   * enumerated settings in the branch for the quality (none for an unrecognised one),
   * then the four flags.
   */
  method BuildCriteria(quality: Quality) returns (criteria: Criteria)
    ensures fresh(criteria)
    ensures criteria.Fields() == ProviderCriteria(quality)
  {
    criteria := new Criteria();
    match quality {
      case LowPower =>
        criteria.accuracy := Coarse;
        criteria.horizontalAccuracy := Low;
        criteria.verticalAccuracy := Low;
        criteria.powerRequirement := PowerLow;
      case Balanced =>
        criteria.accuracy := Fine;
        criteria.horizontalAccuracy := Medium;
        criteria.verticalAccuracy := Medium;
        criteria.powerRequirement := PowerMedium;
      case HighAccuracy =>
        criteria.accuracy := Fine;
        criteria.horizontalAccuracy := High;
        criteria.verticalAccuracy := High;
        criteria.powerRequirement := NoRequirement;
      case Other(_) =>
        // no branch matches: the four settings keep their fresh values
    }
    criteria.altitudeRequired := false;
    criteria.bearingRequired := false;
    criteria.speedRequired := false;
    criteria.costAllowed := false;
  }

  /** The location service. Its request quality is an immutable value fixed at balanced. */
  class LocationService {
    const requestQuality: Quality := Balanced

    constructor ()
    {
    }

    /**
     * A fresh criteria object for the service's request quality; since that quality never
     * changes, every call yields a new object holding the same values.
     */
    method GetProviderCriteria() returns (criteria: Criteria)
      ensures fresh(criteria)
      ensures criteria.Fields() == ProviderCriteria(requestQuality)
    {
      criteria := BuildCriteria(requestQuality);
    }

    /**
     * Starting asks the platform for the best provider that is currently enabled, under
     * the service's criteria. The lookup itself is the platform's; this returns what is
     * handed to it: the balanced row, with enabled providers only.
     */
    method Start() returns (requested: Criteria, enabledOnly: bool)
      ensures requested.accuracy == Fine
      ensures requested.horizontalAccuracy == Medium && requested.verticalAccuracy == Medium
      ensures requested.powerRequirement == PowerMedium
      ensures !requested.altitudeRequired && !requested.bearingRequired
      ensures !requested.speedRequired && !requested.costAllowed
      ensures enabledOnly
    {
      requested := GetProviderCriteria();
      enabledOnly := true;
    }
  }

  // The three rows of the table.

  lemma LowPowerCriteria()
    ensures ProviderCriteria(LowPower).accuracy == Coarse
    ensures ProviderCriteria(LowPower).horizontalAccuracy == Low
    ensures ProviderCriteria(LowPower).verticalAccuracy == Low
    ensures ProviderCriteria(LowPower).powerRequirement == PowerLow
  {
  }

  lemma BalancedCriteria()
    ensures ProviderCriteria(Balanced).accuracy == Fine
    ensures ProviderCriteria(Balanced).horizontalAccuracy == Medium
    ensures ProviderCriteria(Balanced).verticalAccuracy == Medium
    ensures ProviderCriteria(Balanced).powerRequirement == PowerMedium
  {
  }

  lemma HighAccuracyCriteria()
    ensures ProviderCriteria(HighAccuracy).accuracy == Fine
    ensures ProviderCriteria(HighAccuracy).horizontalAccuracy == High
    ensures ProviderCriteria(HighAccuracy).verticalAccuracy == High
    ensures ProviderCriteria(HighAccuracy).powerRequirement == NoRequirement
  {
  }

  /**
   * Across the recognised qualities, asking for a higher horizontal accuracy always comes
   * with a looser power requirement, and the overall accuracy is coarse only for low power.
   */
  lemma TradeoffOrdering(q1: Quality, q2: Quality)
    requires q1.Recognised() && q2.Recognised()
    ensures LevelRank(ProviderCriteria(q1).horizontalAccuracy) < LevelRank(ProviderCriteria(q2).horizontalAccuracy)
        <==> PowerLooseness(ProviderCriteria(q1).powerRequirement) < PowerLooseness(ProviderCriteria(q2).powerRequirement)
    ensures ProviderCriteria(q1).accuracy == Coarse <==> q1 == LowPower
  {
  }

  /**
   * The recognised qualities correspond one to one with the named horizontal accuracy
   * levels: each level is asked for by exactly one recognised quality.
   */
  lemma HorizontalLevelsCovered(level: AccuracyLevel)
    ensures level != LevelNoRequirement <==>
              exists q: Quality :: q.Recognised() && ProviderCriteria(q).horizontalAccuracy == level
    ensures forall q1: Quality, q2: Quality ::
              (q1.Recognised() && q2.Recognised() &&
               ProviderCriteria(q1).horizontalAccuracy == level &&
               ProviderCriteria(q2).horizontalAccuracy == level) ==> q1 == q2
  {
    match level
    case LevelNoRequirement =>
    case Low => assert ProviderCriteria(LowPower).horizontalAccuracy == level;
    case Medium => assert ProviderCriteria(Balanced).horizontalAccuracy == level;
    case High => assert ProviderCriteria(HighAccuracy).horizontalAccuracy == level;
  }

  /**
   * Each power requirement is asked for by exactly one recognised quality, and every
   * unrecognised quality is left with no power requirement, the value high accuracy
   * asks for.
   */
  lemma PowerLevelsCovered(power: Power)
    ensures exists q: Quality :: q.Recognised() && ProviderCriteria(q).powerRequirement == power
    ensures forall q1: Quality, q2: Quality ::
              (q1.Recognised() && q2.Recognised() &&
               ProviderCriteria(q1).powerRequirement == power &&
               ProviderCriteria(q2).powerRequirement == power) ==> q1 == q2
    ensures forall code: int ::
              ProviderCriteria(Other(code)).powerRequirement == ProviderCriteria(HighAccuracy).powerRequirement
  {
    match power
    case PowerLow => assert ProviderCriteria(LowPower).powerRequirement == power;
    case PowerMedium => assert ProviderCriteria(Balanced).powerRequirement == power;
    case NoRequirement => assert ProviderCriteria(HighAccuracy).powerRequirement == power;
  }
}
