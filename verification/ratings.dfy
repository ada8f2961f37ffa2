/** The rating scales shared by RAW hazards and venue hazards. */
module Ratings {

  /** `'low' | 'medium' | 'high' | 'critical'`: a hazard's severity and a
      RAW's overall risk level use the same four values. */
  datatype Level = Low | Medium | High | Critical

  /** `'low' | 'medium' | 'high' | 'very_high'`: how likely a hazard is. */
  datatype Likelihood = Low | Medium | High | VeryHigh
}
