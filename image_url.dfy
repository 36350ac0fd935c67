/**
 * Image addresses on the home page's popular-items carousel: an absolute
 * address is used as it is, anything else is a key in the object store and
 * is prefixed with the store's endpoint.
 */
module ImageUrl {
  import opened Util

  /** `getImageUrl`; the endpoint comes from the build environment and is a parameter. */
  function GetImageUrl(endpoint: string, imagePath: string): (url: string)
    ensures StartsWith(imagePath, "http") ==> url == imagePath
    ensures !StartsWith(imagePath, "http") ==> url == endpoint + "/" + imagePath
  {
    if StartsWith(imagePath, "http") then imagePath else endpoint + "/" + imagePath
  }

  /** The result always ends with the path it was given. */
  lemma EndsWithPath(endpoint: string, imagePath: string)
    ensures var url := GetImageUrl(endpoint, imagePath);
      |imagePath| <= |url| && url[|url| - |imagePath|..] == imagePath
  {
    var url := GetImageUrl(endpoint, imagePath);
    if !StartsWith(imagePath, "http") {
      assert url == (endpoint + "/") + imagePath;
    }
  }

  /** A prefix of a prefix: whatever starts with the endpoint starts with what the endpoint starts with. */
  lemma StartsWithExtends(s: string, t: string, prefix: string)
    requires StartsWith(s, prefix)
    ensures StartsWith(s + t, prefix)
  {
    assert (s + t)[..|prefix|] == s[..|prefix|];
  }

  /** With an absolute endpoint, resolving an already resolved address changes nothing. */
  lemma Idempotent(endpoint: string, imagePath: string)
    requires StartsWith(endpoint, "http")
    ensures GetImageUrl(endpoint, GetImageUrl(endpoint, imagePath)) == GetImageUrl(endpoint, imagePath)
  {
    if !StartsWith(imagePath, "http") {
      StartsWithExtends(endpoint, "/" + imagePath, "http");
      assert endpoint + "/" + imagePath == endpoint + ("/" + imagePath);
    }
  }

  /** A path with an endpoint in front never looks absolute: the slash comes before "http" could be spelt out, or the endpoint's own start is kept. */
  lemma PrefixedNotAbsolute(endpoint: string, imagePath: string)
    requires !StartsWith(endpoint, "http")
    ensures !StartsWith(endpoint + "/" + imagePath, "http")
  {
    var url := endpoint + "/" + imagePath;
    if |endpoint| >= 4 {
      assert url[..4] == endpoint[..4];
    } else if |url| >= 4 {
      assert url[|endpoint|] == '/';
      assert "http"[|endpoint|] != '/';
    }
  }

  /** With an endpoint that is not absolute, every second resolution of a relative path prefixes the endpoint again. */
  lemma {:induction false} RelativeEndpointNotIdempotent(endpoint: string, imagePath: string)
    requires !StartsWith(endpoint, "http") && !StartsWith(imagePath, "http")
    ensures GetImageUrl(endpoint, GetImageUrl(endpoint, imagePath)) == endpoint + "/" + endpoint + "/" + imagePath
    ensures GetImageUrl(endpoint, GetImageUrl(endpoint, imagePath)) != GetImageUrl(endpoint, imagePath)
  {
    PrefixedNotAbsolute(endpoint, imagePath);
    var once := GetImageUrl(endpoint, imagePath);
    assert once == endpoint + "/" + imagePath;
    assert endpoint + "/" + once == endpoint + "/" + endpoint + "/" + imagePath;
    assert |endpoint + "/" + once| > |once|;
  }
}
