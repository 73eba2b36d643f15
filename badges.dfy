/**
 * Status badges of the subscription screens: each screen keeps a table from
 * status to badge variant and falls back to "default" for anything else
 * (`variants[status] || "default"`).
 */
module Badges {

  /** The four badge variants the tables use. */
  datatype Variant = Default | Secondary | Destructive | Outline

  /** A rendered badge: its variant and the text it shows. */
  datatype Badge = Badge(variant: Variant, text: string)

  /** Looks `status` up in a variant table, defaulting to `Default`. */
  function VariantFor(variants: map<string, Variant>, status: string): Variant {
    if status in variants then variants[status] else Default
  }
}
