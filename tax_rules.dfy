/**
 * The pieces of the sales-tax rule both checkout screens share: the 5% GST and 9.975% QST
 * rates, how the province field is normalised, what names Quebec, and the province codes
 * the older screen recognises.
 */
module TaxRules {
  import opened Text

  const GstRate: real := 0.05
  const QstRate: real := 0.09975

  /** `formData.state?.trim().toUpperCase() || ""`. */
  function NormalizedState(state: string): string {
    ToUpper(Trim(state))
  }

  /** An unpadded value without lower-case letters is already normalised. */
  lemma NormalizedUnchanged(state: string)
    requires state == [] || (!IsWhitespace(state[0]) && !IsWhitespace(state[|state| - 1]))
    requires forall i :: 0 <= i < |state| ==> !('a' <= state[i] <= 'z')
    ensures NormalizedState(state) == state
  {
    TrimUnpadded(state);
    ToUpperUnchanged(state);
  }

  /** `state === "QC" || state === "QUEBEC"` on the normalised value. */
  predicate NamesQuebec(normalized: string) {
    normalized == "QC" || normalized == "QUEBEC"
  }

  /** The thirteen Canadian province and territory codes. */
  const ProvinceCodes: seq<string> :=
    ["AB", "BC", "MB", "NB", "NL", "NS", "NT", "NU", "ON", "PE", "QC", "SK", "YT"]
}
