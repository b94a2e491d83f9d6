/**
 * Platform matching and the YouTube URL sanitiser of `downloaders.py`:
 * `match_url_to_platform`, `YoutubeDownloader.sanitize_url` and
 * `YoutubeDownloader.validate_video_part`.
 */
module Platform {
  import opened Wrappers
  import PyStr

  const YoutubeKey: string := "Youtube"
  const YoutubeMatch: string := "youtube"
  /** Length of the `https://www.` prefix that matching skips. */
  const HostPrefixLength: nat := 12
  const UrlScheme: string := "https://www.youtube.com/watch?v="
  const VideoIdLength: nat := 11

  /**
   * The platform key for a raw URL: `Youtube` when the text after the
   * first twelve characters begins with `youtube`, otherwise none.
   */
  function MatchUrlToPlatform(url: string): (r: Option<string>)
    ensures r.Some? ==> r.value == YoutubeKey
    ensures r.Some? <==>
      |url| >= HostPrefixLength + |YoutubeMatch| &&
      url[HostPrefixLength..HostPrefixLength + |YoutubeMatch|] == YoutubeMatch
  {
    if |url| < HostPrefixLength then None
    else if PyStr.StartsWith(url[HostPrefixLength..], YoutubeMatch) then Some(YoutubeKey)
    else None
  }

  /** Matching never looks at the first twelve characters. */
  lemma MatchIgnoresHostPrefix(a: string, b: string, rest: string)
    requires |a| == HostPrefixLength && |b| == HostPrefixLength
    ensures MatchUrlToPlatform(a + rest) == MatchUrlToPlatform(b + rest)
  {
  }

  /** A character allowed in a YouTube video id: `[0-9A-Za-z_-]`. */
  predicate IsIdChar(c: char) {
    ('0' <= c <= '9') || ('A' <= c <= 'Z') || ('a' <= c <= 'z') || c == '-' || c == '_'
  }

  /** A well-formed video id: exactly eleven id characters. */
  predicate ValidVideoPart(part: string) {
    |part| == VideoIdLength && forall i :: 0 <= i < |part| ==> IsIdChar(part[i])
  }

  /**
   * `validate_video_part`: rejects a wrong length at once, then checks the
   * characters by code point, stopping at the first one outside the class.
   */
  method ValidateVideoPart(videoPart: string) returns (ok: bool)
    ensures ok <==> ValidVideoPart(videoPart)
  {
    if |videoPart| != VideoIdLength {
      return false;
    }
    var i := 0;
    while i < |videoPart|
      invariant 0 <= i <= |videoPart|
      invariant forall j :: 0 <= j < i ==> IsIdChar(videoPart[j])
    {
      var code := videoPart[i] as int;
      if (48 <= code <= 57) || (65 <= code <= 90) || (97 <= code <= 122) || code == 45 || code == 95 {
        i := i + 1;
      } else {
        return false;
      }
    }
    return true;
  }

  /**
   * `sanitize_url`: for a URL that is longer than the scheme and starts
   * with it, cuts at the first `&` after the scheme and returns the
   * canonical URL and the video id when the id is well formed.
   */
  function SanitizeUrl(url: string): (r: Option<(string, string)>)
    ensures r.Some? ==> ValidVideoPart(r.value.1) && r.value.0 == UrlScheme + r.value.1
    ensures r.Some? ==> PyStr.StartsWith(url, r.value.0)
  {
    var schemeLen := |UrlScheme|;
    if |url| > schemeLen && PyStr.StartsWith(url, UrlScheme) then
      var nextParam := PyStr.FindChar(url, '&', schemeLen);
      if nextParam == -1 then
        if !ValidVideoPart(url[schemeLen..]) then None
        else Some((url, url[schemeLen..]))
      else
        var videoPart := url[schemeLen..nextParam];
        if !ValidVideoPart(videoPart) then None
        else Some((url[..nextParam], videoPart))
    else None
  }

  /** A URL the sanitiser accepts: scheme, a valid id, then the end or an `&`. */
  predicate WellFormedVideoUrl(url: string) {
    var idEnd := |UrlScheme| + VideoIdLength;
    |url| >= idEnd && url[..|UrlScheme|] == UrlScheme &&
    ValidVideoPart(url[|UrlScheme|..idEnd]) &&
    (|url| == idEnd || url[idEnd] == '&')
  }

  /**
   * Exactly the well-formed URLs are accepted, and the result is the URL
   * cut right after the id together with the id.
   */
  lemma SanitizeUrlAccepts(url: string)
    ensures SanitizeUrl(url).Some? <==> WellFormedVideoUrl(url)
    ensures SanitizeUrl(url).Some? ==>
      var idEnd := |UrlScheme| + VideoIdLength;
      SanitizeUrl(url).value == (url[..idEnd], url[|UrlScheme|..idEnd])
  {
  }

  /** Sanitising a canonical URL gives back the same pair. */
  lemma SanitizeUrlFixedPoint(url: string)
    requires SanitizeUrl(url).Some?
    ensures SanitizeUrl(SanitizeUrl(url).value.0) == SanitizeUrl(url)
  {
  }

  /** A URL that starts with the watch-URL scheme is matched to YouTube. */
  lemma SchemeMatchesYoutube(u: string)
    requires PyStr.StartsWith(u, UrlScheme)
    ensures MatchUrlToPlatform(u) == Some(YoutubeKey)
  {
    var lo, hi := HostPrefixLength, HostPrefixLength + |YoutubeMatch|;
    assert |UrlScheme| == 32 && hi == 19;
    assert UrlScheme[lo..hi] == YoutubeMatch;
    assert u[lo..hi] == u[..|UrlScheme|][lo..hi];
  }

  /** Every URL the sanitiser accepts, and its canonical form, is matched to YouTube. */
  lemma SanitizedUrlMatchesYoutube(url: string)
    requires SanitizeUrl(url).Some?
    ensures MatchUrlToPlatform(url) == Some(YoutubeKey)
    ensures MatchUrlToPlatform(SanitizeUrl(url).value.0) == Some(YoutubeKey)
  {
    var canonical := SanitizeUrl(url).value.0;
    SanitizeUrlAccepts(url);
    assert url[..|UrlScheme|] == UrlScheme;
    SchemeMatchesYoutube(url);
    assert canonical[..|UrlScheme|] == UrlScheme;
    SchemeMatchesYoutube(canonical);
  }
}
