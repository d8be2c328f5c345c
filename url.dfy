/** `_normalize_url`: the address every checker and adapter evaluates. */
module Url {
  import opened Text

  /** An address that does not start with "http" gets "https://" in front;
      any other address is returned as it is. */
  function NormalizeUrl(url: string): (r: string)
    ensures StartsWith(r, "http")
    ensures r == url <==> StartsWith(url, "http")
    ensures !StartsWith(url, "http") ==> r == "https://" + url
  {
    if StartsWith(url, "http") then url else "https://" + url
  }

  /** Normalizing twice is normalizing once. */
  lemma NormalizeIdempotent(url: string)
    ensures NormalizeUrl(NormalizeUrl(url)) == NormalizeUrl(url)
  {
  }
}
