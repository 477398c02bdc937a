/** The integration's constants that the modelled code reads. */
module Const {
  /** The integration's domain, the first half of every device identifier. */
  const Domain: string := "ferrellgas"

  /** Name of the options entry holding the low-propane threshold. */
  const ConfLowPropaneThreshold: string := "low_propane_threshold"

  /** Percentage below which a tank counts as low when no option is set. */
  const DefaultLowPropaneThreshold: int := 20

}
