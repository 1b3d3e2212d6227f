/** Image URL resolution: media URLs stored by the backend are absolute in production (served
    from a CDN) and relative in development, where the backend's own URL is prepended. */
module ImageUrl {
  import opened Js

  predicate StartsWith(s: string, prefix: string) {
    |prefix| <= |s| && s[..|prefix|] == prefix
  }

  predicate IsAbsolute(url: string) {
    StartsWith(url, "http://") || StartsWith(url, "https://")
  }

  /** The URL to load an image from, or None when there is no image. `base` is the configured
      backend URL, the empty string when none is configured. */
  function GetImageUrl(url: Option<string>, base: string): (r: Option<string>)
    ensures r.None? <==> !Present(url)
    ensures Present(url) && IsAbsolute(url.value) ==> r == url
    ensures Present(url) && !IsAbsolute(url.value) ==>
              && r.Some?
              && StartsWith(r.value, base)
              && r.value[|base|..] == url.value
  {
    if !Present(url) then None
    else if IsAbsolute(url.value) then url
    else Some(base + url.value)
  }

  /** With no backend URL configured, a relative URL is used as it is. */
  lemma EmptyBaseKeepsUrl(url: string)
    requires url != ""
    ensures GetImageUrl(Some(url), "") == Some(url)
  {
    assert "" + url == url;
  }

  /** A prefix of a prefix is a prefix. */
  lemma StartsWithTrans(s: string, t: string, p: string)
    requires StartsWith(t, p) && StartsWith(s, t)
    ensures StartsWith(s, p)
  {
    assert s[..|p|] == s[..|t|][..|p|];
  }

  /** Resolving an already resolved URL changes nothing, as long as the backend URL is empty or
      itself absolute: the resolved URL is then absolute, or it is the relative URL unchanged. */
  lemma {:induction false} GetImageUrlIdempotent(url: Option<string>, base: string)
    requires base == "" || IsAbsolute(base)
    ensures var once := GetImageUrl(url, base);
            GetImageUrl(once, base) == once
  {
    if Present(url) && !IsAbsolute(url.value) {
      var r := base + url.value;
      assert r[..|base|] == base;
      if base == "" {
        assert r == url.value;
      } else if StartsWith(base, "http://") {
        StartsWithTrans(r, base, "http://");
      } else {
        StartsWithTrans(r, base, "https://");
      }
    }
  }
}
