/** The tier classifier: which contract template a payment amount selects. */
module Tiers {
  import opened Outcomes

  /** The three contract templates; the deployment configures one identifier for each. */
  datatype TemplateId = BasicTemplate | PremiumTemplate | EnterpriseTemplate

  /** Inclusive upper bound of the basic tier, in minor units ($350.00). */
  const BASIC_LIMIT: int := 35000
  /** Inclusive upper bound of the premium tier, in minor units ($10,000.00). */
  const PREMIUM_LIMIT: int := 1000000

  /** The exclusive lower bound of a tier's band of amounts, if it has one. */
  function Floor(t: TemplateId): Option<int>
  {
    match t
    case BasicTemplate => None
    case PremiumTemplate => Some(BASIC_LIMIT)
    case EnterpriseTemplate => Some(PREMIUM_LIMIT)
  }

  /** The inclusive upper bound of a tier's band of amounts, if it has one. */
  function Ceiling(t: TemplateId): Option<int>
  {
    match t
    case BasicTemplate => Some(BASIC_LIMIT)
    case PremiumTemplate => Some(PREMIUM_LIMIT)
    case EnterpriseTemplate => None
  }

  /** The amount lies in the tier's band (Floor, Ceiling]. */
  predicate InBand(amount: int, t: TemplateId)
  {
    (Floor(t).None? || Floor(t).value < amount) && (Ceiling(t).None? || amount <= Ceiling(t).value)
  }

  /** Position of a tier in the price order. */
  function Rank(t: TemplateId): nat
  {
    match t
    case BasicTemplate => 0
    case PremiumTemplate => 1
    case EnterpriseTemplate => 2
  }

  /** The template for an amount: the tier whose band contains it. */
  function TierTemplate(amount: int): (t: TemplateId)
    ensures InBand(amount, t)
  {
    if amount <= BASIC_LIMIT then BasicTemplate
    else if amount <= PREMIUM_LIMIT then PremiumTemplate
    else EnterpriseTemplate
  }

  /** The bands partition the integers: an amount lies in exactly the band of its template. */
  lemma TierTemplateIsBand(amount: int, t: TemplateId)
    ensures TierTemplate(amount) == t <==> InBand(amount, t)
  {
  }

  /** A larger payment never selects a cheaper template. */
  lemma TierTemplateMonotone(a: int, b: int)
    requires a <= b
    ensures Rank(TierTemplate(a)) <= Rank(TierTemplate(b))
  {
  }

  /** The boundaries are exact equality tests on integers. */
  lemma TierBoundaries()
    ensures TierTemplate(35000) == BasicTemplate
    ensures TierTemplate(35001) == PremiumTemplate
    ensures TierTemplate(1000000) == PremiumTemplate
    ensures TierTemplate(1000001) == EnterpriseTemplate
  {
  }
}
