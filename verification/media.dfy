/**
 * The two image-URL rules of the normalisers: the project and home-page rule
 * (the URL as given, or the placeholder) and the blog rule (the placeholder,
 * an absolute URL as given, or a path prefixed with the media host).
 */
module Media {
  import opened Wrappers
  import opened Types
  import opened Strings

  /** Path of the image shown when an item has none. */
  const Placeholder: string := "/images/no-image.png"

  /** The host that serves the media files of the content API. */
  const MediaHost: string := "https://portfoliobackend-iato.onrender.com"

  /** `item.image?.url` is truthy: the image exists and its URL is not empty. */
  predicate HasUrl(image: Option<StrapiMedia>)
  {
    image.Some? && image.value.url != ""
  }

  /** `item.image?.url ? `${item.image.url}` : '/images/no-image.png'`. */
  function ImageOrPlaceholder(image: Option<StrapiMedia>): (r: string)
    ensures r != ""
    ensures HasUrl(image) ==> r == image.value.url
    ensures !HasUrl(image) ==> r == Placeholder
  {
    if HasUrl(image) then image.value.url else Placeholder
  }

  /**
   * The blog rule: no URL gives the placeholder, a URL starting with `http` is
   * kept, and any other URL is a path on the media host.
   */
  function ResolveMediaUrl(image: Option<StrapiMedia>): (r: string)
    ensures !HasUrl(image) <==> r == Placeholder
    ensures HasUrl(image) && StartsWith(image.value.url, "http") ==> r == image.value.url
    ensures HasUrl(image) && !StartsWith(image.value.url, "http") ==> r == MediaHost + image.value.url
    ensures r == Placeholder || StartsWith(r, "http")
  {
    if HasUrl(image) then
      var url := image.value.url;
      if StartsWith(url, "http") then
        assert url[0] == "http"[0] != Placeholder[0];
        url
      else
        assert MediaHost[0] == 'h' && MediaHost[1] == 't' && MediaHost[2] == 't' && MediaHost[3] == 'p';
        assert (MediaHost + url)[..4] == "http";
        MediaHost + url
    else Placeholder
  }

  /**
   * Resolving a resolved URL again changes nothing, except for the placeholder,
   * which is a relative path and would be put on the media host.
   */
  lemma ResolveAgain(image: Option<StrapiMedia>)
    ensures var r := ResolveMediaUrl(image);
      ResolveMediaUrl(Some(StrapiMedia(r))) == if r == Placeholder then MediaHost + Placeholder else r
  {
    var r := ResolveMediaUrl(image);
    assert r[0] == 'h' || r[0] == '/';
  }
}
