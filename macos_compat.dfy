/** Platform compatibility helpers of the macOS backend (macos/compat.rs). */
module MacCompat {
  import opened Common

  /** `normalize_domain`: a final '.' is dropped, anything else is kept; the source
      indexes the last character by byte length, so an empty or non-ASCII domain panics. */
  function NormalizeDomain(domain: string): (r: string)
    requires |domain| > 0 && Ascii(domain)
    ensures domain[|domain| - 1] == '.' ==> domain == r + "."
    ensures domain[|domain| - 1] != '.' ==> r == domain
    ensures |r| == |domain| || |r| == |domain| - 1
  {
    if domain[|domain| - 1] == '.' then domain[..|domain| - 1] else domain
  }

  /** Only one dot goes: `"a.."` becomes `"a."`. */
  lemma NormalizeDomainRemovesOneDot(d: string)
    requires Ascii(d)
    ensures Ascii(d + "..") && NormalizeDomain(d + "..") == d + "."
    ensures Ascii(d + ".") && NormalizeDomain(NormalizeDomain(d + "..")) == d
  {
    assert (d + "..")[..|d| + 1] == d + ".";
    assert (d + ".")[..|d|] == d;
  }
}
