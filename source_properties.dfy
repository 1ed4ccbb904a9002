/**
  What resolution promises about particular link shapes: the three YouTube
  forms of one video give the same job, a canonical URL resolves to the job
  it came from, Reddit comment and v.redd.it links give the post or video
  id, and links of no registered source are refused.
 */
module SourceProperties {
  import opened Wrappers
  import opened Strings
  import opened Urls
  import opened MediaSources

  /** The job every YouTube link form of video `id` resolves to. */
  function YouTubeJob(requester: Requester, id: string): (job: Job)
    ensures job.source == YouTube && job.mediaId == id && job.requester == requester
  {
    Job(requester, YouTube, id, WatchUrl(id), Some(ThumbnailUrl(id)))
  }

  // ------------------------------------------------------------ link parsing

  /** A host name: no character that ends the network location, no upper case. */
  predicate PlainHost(host: string) {
    && (forall k :: 0 <= k < |host| ==> host[k] !in NetlocDelimiters && !('A' <= host[k] <= 'Z'))
    && NoUnsafe(host)
  }

  /** A path urlparse leaves whole: rooted, no query, fragment or parameters. */
  predicate PlainPath(path: string) {
    (path == [] || path[0] == '/') && '?' !in path && '#' !in path && ';' !in path && NoUnsafe(path)
  }

  lemma HttpsScheme()
    ensures ValidScheme("https") && Lower("https") == "https"
  {
    assert IsAsciiLetter('h') && IsAsciiLetter('t') && IsAsciiLetter('p') && IsAsciiLetter('s');
  }

  /** Lower-casing a host that has no upper-case letter changes nothing. */
  lemma LowerPlainHost(host: string)
    requires PlainHost(host)
    ensures Lower(host) == host
  {
  }

  /** A rooted path of lower-case letters and separators is a plain path. */
  lemma LowerPath(path: string)
    requires path != [] && path[0] == '/'
    requires forall k :: 0 <= k < |path| ==> 'a' <= path[k] <= 'z' || path[k] == '/'
    ensures PlainPath(path)
  {
  }

  /** A plain path followed by text without delimiters is a plain path. */
  lemma PlainPathConcat(path: string, rest: string)
    requires PlainPath(path) && path != []
    requires '?' !in rest && '#' !in rest && ';' !in rest && NoUnsafe(rest)
    ensures PlainPath(path + rest) && (path + rest)[0] == '/'
  {
  }

  lemma HttpsConcat(host: string, path: string)
    ensures "https" + "://" + host + path == "https://" + host + path
  {
  }

  lemma HttpsQueryConcat(host: string, path: string, query: string)
    ensures "https" + "://" + host + path + "?" + query == "https://" + host + path + "?" + query
  {
  }

  lemma HttpsParts(host: string, path: string)
    requires PlainHost(host) && PlainPath(path)
    ensures Parse("https" + "://" + host + path) == Url("https", host, path, "", "", "")
  {
    HttpsScheme();
    ParseWithoutQuery("https", host, path);
  }

  lemma HttpsQueryParts(host: string, path: string, query: string)
    requires PlainHost(host) && PlainPath(path) && '#' !in query && NoUnsafe(query)
    ensures Parse("https" + "://" + host + path + "?" + query) == Url("https", host, path, "", query, "")
  {
    HttpsScheme();
    ParseWithQuery("https", host, path, query);
  }

  /** `https://<host><path>` parses into exactly its host and path. */
  lemma HttpsLink(host: string, path: string)
    requires PlainHost(host) && PlainPath(path)
    ensures Parse("https://" + host + path) == Url("https", host, path, "", "", "")
  {
    HttpsParts(host, path);
    HttpsConcat(host, path);
  }

  /** `https://<host><path>?<query>` parses into its host, path and query. */
  lemma HttpsQueryLink(host: string, path: string, query: string)
    requires PlainHost(host) && PlainPath(path) && '#' !in query && NoUnsafe(query)
    ensures Parse("https://" + host + path + "?" + query) == Url("https", host, path, "", query, "")
  {
    HttpsQueryParts(host, path, query);
    HttpsQueryConcat(host, path, query);
  }

  /** Characters of a YouTube id are never URL delimiters. */
  lemma IdCharsAreUrlSafe(id: string)
    requires AllIdChars(id)
    ensures '?' !in id && '#' !in id && ';' !in id && '/' !in id && '&' !in id && '=' !in id && NoUnsafe(id)
    ensures '+' !in id
  {
    forall k | 0 <= k < |id|
      ensures id[k] !in {'?', '#', ';', '/', '&', '=', '\t', '\r', '\n'}
    {
      assert IsIdChar(id[k]);
    }
  }

  /** A non-empty tail ending in id characters satisfies `.+$` when it holds no line feed. */
  lemma IdTailMatches(prefix: string, id: string)
    requires id != [] && AllIdChars(id) && '\n' !in prefix
    ensures DotPlusAtEnd(prefix + id)
  {
    IdCharsAreUrlSafe(id);
    var t := prefix + id;
    assert t[|t| - 1] == id[|id| - 1];
    assert IsIdChar(id[|id| - 1]);
    forall k | 0 <= k < |t| ensures t[k] != '\n' {
      if k >= |prefix| { assert t[k] == id[k - |prefix|]; }
    }
  }

  /** Only the first registered strategy is consulted for a YouTube-shaped link. */
  lemma ResolveYouTube(requester: Requester, link: string)
    requires YouTubeCanHandle(link)
    ensures Resolve(Registered, requester, link) ==
            (match YouTubeCreateJob(requester, link) case None => Malformed case Some(job) => Accepted(job))
  {
    assert CanHandle(Registered[0], link);
  }

  /**
    Every accepted job has a non-empty media id; a YouTube job came from a
    YouTube-shaped link and points at the watch page and thumbnail of its id;
    a Reddit job came from a link YouTube refused, keeps that link and has a
    "reddit_" id.
   */
  lemma AcceptedJobShape(requester: Requester, link: string)
    requires Resolve(Registered, requester, link).Accepted?
    ensures var job := Resolve(Registered, requester, link).job;
            && job.mediaId != [] && job.requester == requester
            && (job.source == YouTube ==>
                  YouTubeCanHandle(link) && job.canonicalUrl == WatchUrl(job.mediaId)
                  && job.thumbnail == Some(ThumbnailUrl(job.mediaId)))
            && (job.source == Reddit ==>
                  !YouTubeCanHandle(link) && RedditCanHandle(link) && job.canonicalUrl == link
                  && job.thumbnail.None? && job.mediaId[..7] == "reddit_")
  {
    var job := Resolve(Registered, requester, link).job;
    var i := FirstHandler(Registered, link);
    if job.source == YouTube {
      assert i == 0;
    } else {
      assert i == 1 && !CanHandle(Registered[0], link);
    }
  }

  // ---------------------------------------------------------- youtu.be links

  /** After `https://youtu.be/` the YouTube pattern's tail is the rest of the link. */
  lemma ShortTail(rest: string)
    ensures YouTubeTail("https://youtu.be/" + rest) == Some(rest)
  {
    var link := "https://youtu.be/" + rest;
    assert link[..8] == "https://";
    var a := link[8..];
    assert a == "youtu.be/" + rest;
    assert a[0] == 'y' && a[5] == '.';
    assert !StartsWith(a, "www.");
    assert !StartsWith(a, "youtube.com/") by {
      if |a| >= 12 { assert a[..12][5] == '.'; }
    }
    assert a[..9] == "youtu.be/" && a[9..] == rest;
  }

  lemma ShortLinkHandled(id: string)
    requires id != [] && AllIdChars(id)
    ensures YouTubeCanHandle("https://youtu.be/" + id)
    ensures YouTubeTail("https://youtu.be/" + id) == Some(id)
  {
    ShortTail(id);
    IdTailMatches([], id);
    assert [] + id == id;
  }

  lemma YoutuBeHost()
    ensures PlainHost("youtu.be") && EndsWith("youtu.be", "youtu.be")
  {
  }

  lemma ShortUrlParts(path: string)
    ensures "https://youtu.be" + path == "https://" + "youtu.be" + path
  {
  }

  /** `https://youtu.be<path>` parses into the youtu.be host and the path. */
  lemma ShortLinkParses(path: string)
    requires PlainPath(path)
    ensures Parse("https://youtu.be" + path) == Url("https", "youtu.be", path, "", "", "")
  {
    YoutuBeHost();
    HttpsLink("youtu.be", path);
    ShortUrlParts(path);
  }

  lemma ShortLinkId(id: string)
    requires id != [] && AllIdChars(id)
    ensures ExtractVideoId("https://youtu.be/" + id) == Some(id)
  {
    IdCharsAreUrlSafe(id);
    assert "https://youtu.be/" + id == "https://youtu.be" + ("/" + id);
    ShortLinkParses("/" + id);
    YoutuBeHost();
    StripLeading('/', id);
    assert "/" + id == ['/'] + id;
  }

  /** A final line feed passes the pattern's `$` and is removed before the link is split. */
  lemma ShortLinkLineFeedResolves(requester: Requester, id: string)
    requires id != [] && AllIdChars(id)
    ensures Resolve(Registered, requester, "https://youtu.be/" + id + "\n") == Accepted(YouTubeJob(requester, id))
  {
    var a := "https://youtu.be/" + id;
    LineFeedShape(id);
    LineFeedParses(id);
    ShortLinkId(id);
    ShortHostId(a);
    ShortHostId(a + "\n");
    ResolveYouTube(requester, a + "\n");
  }

  lemma LineFeedShape(id: string)
    requires id != [] && AllIdChars(id)
    ensures YouTubeCanHandle("https://youtu.be/" + id + "\n")
  {
    IdCharsAreUrlSafe(id);
    ShortTail(id + "\n");
    assert "https://youtu.be/" + (id + "\n") == "https://youtu.be/" + id + "\n";
    var t := id + "\n";
    assert t[..|t| - 1] == id;
  }

  lemma LineFeedParses(id: string)
    requires id != [] && AllIdChars(id)
    ensures Parse("https://youtu.be/" + id + "\n") == Parse("https://youtu.be/" + id)
    ensures Parse("https://youtu.be/" + id).netloc == "youtu.be"
  {
    ParseSkipsFinalLineFeed("https://youtu.be/" + id);
    ShortLinkHost(id);
  }

  lemma ShortLinkHost(id: string)
    requires id != [] && AllIdChars(id)
    ensures Parse("https://youtu.be/" + id).netloc == "youtu.be"
  {
    IdCharsAreUrlSafe(id);
    assert "https://youtu.be/" + id == "https://youtu.be" + ("/" + id);
    ShortLinkParses("/" + id);
  }

  /** `https://youtu.be/<id>` resolves to the job of `id`. */
  lemma ShortLinkResolves(requester: Requester, id: string)
    requires id != [] && AllIdChars(id)
    ensures Resolve(Registered, requester, "https://youtu.be/" + id) == Accepted(YouTubeJob(requester, id))
  {
    ShortLinkHandled(id);
    ShortLinkId(id);
    ResolveYouTube(requester, "https://youtu.be/" + id);
  }

  // ----------------------------------------------------- youtube.com links

  lemma WwwYouTubeHost()
    ensures PlainHost("www.youtube.com")
  {
    LowerDottedHost("www.youtube.com");
  }

  lemma WwwYouTubeNames()
    ensures !EndsWith("www.youtube.com", "youtu.be") && Contains("www.youtube.com", "youtube.com")
  {
    var host := "www.youtube.com";
    assert host[|host| - 1] == 'm';
    assert StartsWith(host[4..], "youtube.com");
  }

  /** A name made of lower-case letters and dots is a plain host. */
  lemma LowerDottedHost(host: string)
    requires forall k :: 0 <= k < |host| ==> 'a' <= host[k] <= 'z' || host[k] == '.'
    ensures PlainHost(host)
  {
  }

  /** Any link under `https://www.youtube.com/` ending in id characters has the YouTube shape. */
  lemma WwwYouTubeHandled(rest: string, id: string)
    requires '\n' !in rest && id != [] && AllIdChars(id)
    ensures YouTubeCanHandle("https://www.youtube.com/" + rest + id)
  {
    WwwTail(rest + id);
    assert "https://www.youtube.com/" + rest + id == "https://www.youtube.com/" + (rest + id);
    IdTailMatches(rest, id);
  }

  lemma WwwTail(rest: string)
    ensures YouTubeTail("https://www.youtube.com/" + rest) == Some(rest)
  {
    var link := "https://www.youtube.com/" + rest;
    assert "https://" + "www." + "youtube.com/" == "https://www.youtube.com/";
    assert link[..24] == "https://www.youtube.com/" && link[24..] == rest;
    PrefixTail(link, "https://", "www.", "youtube.com/");
  }

  /** On the www.youtube.com host a `v` query value is the video id. */
  lemma QueryOnYouTubeHost(link: string, id: string)
    requires Parse(link).netloc == "www.youtube.com"
    requires QueryFirst(Parse(link).query, "v") == Some(id)
    ensures ExtractVideoId(link) == Some(id)
  {
    WwwYouTubeNames();
  }

  /** On the www.youtube.com host without a `v` query value a shorts match gives the id. */
  lemma ShortsOnYouTubeHost(link: string, id: string)
    requires Parse(link).netloc == "www.youtube.com"
    requires QueryFirst(Parse(link).query, "v") == None
    requires SearchShorts(link) == Some(id)
    ensures ExtractVideoId(link) == Some(id)
  {
    WwwYouTubeNames();
  }

  lemma WatchUrlParts(id: string)
    ensures WatchUrl(id) == "https://www.youtube.com/" + "watch?v=" + id
    ensures WatchUrl(id) == "https://" + "www.youtube.com" + "/watch" + "?" + ("v=" + id)
  {
    assert "https://www.youtube.com/" + "watch?v=" == "https://www.youtube.com/watch?v=";
    assert "https://" + "www.youtube.com" + "/watch" + "?" + "v=" == "https://www.youtube.com/watch?v=";
  }

  lemma WatchUrlParses(id: string)
    requires id != [] && AllIdChars(id)
    ensures Parse("https://" + "www.youtube.com" + "/watch" + "?" + ("v=" + id))
         == Url("https", "www.youtube.com", "/watch", "", "v=" + id, "")
  {
    IdCharsAreUrlSafe(id);
    WwwYouTubeHost();
    LowerPath("/watch");
    HttpsVLink("www.youtube.com", "/watch", id);
  }

  /** `https://<host><path>?v=<id>` parses into its host, path and `v` query. */
  lemma HttpsVLink(host: string, path: string, id: string)
    requires PlainHost(host) && PlainPath(path) && NoUnsafe(id) && '#' !in id
    ensures Parse("https://" + host + path + "?" + ("v=" + id)) == Url("https", host, path, "", "v=" + id, "")
  {
    VQuerySafe(id);
    HttpsQueryLink(host, path, "v=" + id);
  }

  lemma VQuerySafe(id: string)
    requires NoUnsafe(id) && '#' !in id
    ensures NoUnsafe("v=" + id) && '#' !in "v=" + id
  {
    assert "v=" + id == ['v', '='] + id;
  }

  lemma WatchQuery(id: string)
    requires id != [] && AllIdChars(id)
    ensures QueryFirst("v=" + id, "v") == Some(id)
  {
    IdCharsAreUrlSafe(id);
    QueryFirstSingle("v", id);
    PlusFree("v");
    PlusFree(id);
    VPairText(id);
  }

  lemma VPairText(id: string)
    ensures "v" + "=" + id == "v=" + id
  {
    assert "v" + "=" == "v=";
  }

  /** The canonical watch URL of `id` resolves to the job of `id`. */
  lemma WatchLinkResolves(requester: Requester, id: string)
    requires id != [] && AllIdChars(id)
    ensures Resolve(Registered, requester, WatchUrl(id)) == Accepted(YouTubeJob(requester, id))
  {
    WatchUrlParts(id);
    WwwYouTubeHandled("watch?v=", id);
    WatchUrlParses(id);
    WatchQuery(id);
    QueryOnYouTubeHost(WatchUrl(id), id);
    ResolveYouTube(requester, WatchUrl(id));
  }

  function ShortsUrl(id: string): string {
    "https://www.youtube.com/shorts/" + id
  }

  lemma ShortsUrlParts(id: string)
    ensures ShortsUrl(id) == "https://www.youtube.com/" + "shorts/" + id
    ensures ShortsUrl(id) == "https://" + "www.youtube.com" + ("/shorts/" + id)
    ensures ShortsUrl(id) == "https://www." + (ShortsMarker + id)
  {
    ShortsUrlRest(id);
    ShortsUrlHost(id);
    ShortsUrlMarker(id);
  }

  lemma ShortsUrlRest(id: string)
    ensures ShortsUrl(id) == "https://www.youtube.com/" + "shorts/" + id
  {
  }

  lemma ShortsUrlHost(id: string)
    ensures ShortsUrl(id) == "https://" + "www.youtube.com" + ("/shorts/" + id)
  {
  }

  lemma ShortsUrlMarker(id: string)
    ensures ShortsUrl(id) == "https://www." + (ShortsMarker + id)
  {
  }

  lemma ShortsUrlParses(id: string)
    requires id != [] && AllIdChars(id)
    ensures Parse("https://" + "www.youtube.com" + ("/shorts/" + id))
         == Url("https", "www.youtube.com", "/shorts/" + id, "", "", "")
  {
    IdCharsAreUrlSafe(id);
    WwwYouTubeHost();
    LowerPath("/shorts/");
    HttpsDirLink("www.youtube.com", "/shorts/", id);
  }

  /** `https://<host><dir><name>` parses into its host and the path `<dir><name>`. */
  lemma HttpsDirLink(host: string, dir: string, name: string)
    requires PlainHost(host) && PlainPath(dir) && dir != []
    requires '?' !in name && '#' !in name && ';' !in name && NoUnsafe(name)
    ensures Parse("https://" + host + (dir + name)) == Url("https", host, dir + name, "", "", "")
  {
    PlainPathConcat(dir, name);
    HttpsLink(host, dir + name);
  }

  lemma NoQueryValue()
    ensures QueryFirst("", "v") == None
  {
    assert Split("", '&') == [""];
  }

  lemma ShortsMatch(id: string, tail: string)
    requires |id| == 11 && AllIdChars(id)
    ensures SearchShorts(ShortsMarker + id + tail) == Some(id)
  {
    var rest := ShortsMarker + id + tail;
    assert rest[..19] == ShortsMarker && rest[19..30] == id;
    assert ShortsAt(rest[0..]);
  }

  lemma ShortsSearch(id: string, tail: string)
    requires |id| == 11 && AllIdChars(id)
    ensures SearchShorts("https://www." + (ShortsMarker + id + tail)) == Some(id)
  {
    var x := "https://www." + (ShortsMarker + id + tail);
    assert x[..12] == "https://www." && x[12..] == ShortsMarker + id + tail;
    assert 'y' !in "https://www.";
    SearchShortsSkips(x, 12);
    ShortsMatch(id, tail);
  }

  /** `https://www.youtube.com/shorts/<id>` with an 11-character id resolves to the job of `id`. */
  lemma ShortsLinkResolves(requester: Requester, id: string)
    requires |id| == 11 && AllIdChars(id)
    ensures Resolve(Registered, requester, ShortsUrl(id)) == Accepted(YouTubeJob(requester, id))
  {
    ShortsUrlParts(id);
    WwwYouTubeHandled("shorts/", id);
    ShortsUrlParses(id);
    NoQueryValue();
    ShortsSearch(id, "");
    assert ShortsMarker + id + "" == ShortsMarker + id;
    ShortsOnYouTubeHost(ShortsUrl(id), id);
    ResolveYouTube(requester, ShortsUrl(id));
  }

  lemma ShortsQueryUrlParts(id: string, q: string)
    ensures ShortsUrl(id) + "?" + q == "https://www.youtube.com/" + ("shorts/" + id + "?" + q)
    ensures ShortsUrl(id) + "?" + q == "https://" + "www.youtube.com" + ("/shorts/" + id) + "?" + q
    ensures ShortsUrl(id) + "?" + q == "https://www." + (ShortsMarker + id + ("?" + q))
  {
    ShortsUrlParts(id);
  }

  lemma ShortsQueryTail(id: string, q: string)
    requires AllIdChars(id) && NoUnsafe(q)
    ensures DotPlusAtEnd("shorts/" + id + "?" + q)
  {
    IdCharsAreUrlSafe(id);
    var t := "shorts/" + id + "?" + q;
    forall k | 0 <= k < |t| ensures t[k] != '\n' {
      if k < 7 { assert t[k] == "shorts/"[k]; }
      else if k < 7 + |id| { assert t[k] == id[k - 7]; }
      else if k > 7 + |id| { assert t[k] == q[k - 8 - |id|]; }
    }
  }

  /**
    A shorts link followed by a query that gives `v` no value, such as
    `?feature=share`, still takes its id from the shorts path.
   */
  lemma ShortsQueryLinkResolves(requester: Requester, id: string, q: string)
    requires |id| == 11 && AllIdChars(id)
    requires NoUnsafe(q) && '#' !in q
    requires forall p :: p in Split(q, '&') ==> !NamesValue(p, "v")
    ensures Resolve(Registered, requester, ShortsUrl(id) + "?" + q) == Accepted(YouTubeJob(requester, id))
  {
    var link := ShortsUrl(id) + "?" + q;
    ShortsQueryHandled(id, q);
    ShortsQueryParses(id, q);
    ShortsQueryUrlParts(id, q);
    ShortsSearch(id, "?" + q);
    ShortsOnYouTubeHost(link, id);
    ResolveYouTube(requester, link);
  }

  /** The share link YouTube hands out for a short resolves to the short's job. */
  lemma ShareLinkResolves(requester: Requester, id: string)
    requires |id| == 11 && AllIdChars(id)
    ensures Resolve(Registered, requester, ShortsUrl(id) + "?" + "feature=share") == Accepted(YouTubeJob(requester, id))
  {
    ShareQuery();
    ShortsQueryLinkResolves(requester, id, "feature=share");
  }

  /** `feature=share` is one pair, and it gives `v` no value. */
  lemma ShareQuery()
    ensures NoUnsafe("feature=share") && '#' !in "feature=share"
    ensures forall p :: p in Split("feature=share", '&') ==> !NamesValue(p, "v")
  {
    var key, value := "feature", "share";
    assert key + "=" + value == "feature=share";
    SharePieces(key, value);
    assert |PlusToSpace(key)| == 7;
    QueryFirstOtherKey(key, value, "v");
  }

  lemma SharePieces(key: string, value: string)
    requires key == "feature" && value == "share"
    ensures '&' !in key && '=' !in key && '&' !in value
    ensures NoUnsafe(key + "=" + value) && '#' !in key + "=" + value
  {
    assert AllWordChars(key) && AllWordChars(value);
    WordCharsAreUrlSafe(key);
    WordCharsAreUrlSafe(value);
    var q := key + "=" + value;
    forall k | 0 <= k < |q| ensures q[k] !in {'#', '\t', '\r', '\n'} {
      if k < |key| { assert q[k] == key[k]; } else if k > |key| { assert q[k] == value[k - |key| - 1]; }
    }
  }

  lemma ShortsQueryHandled(id: string, q: string)
    requires AllIdChars(id) && NoUnsafe(q)
    ensures YouTubeCanHandle(ShortsUrl(id) + "?" + q)
  {
    ShortsQueryUrlParts(id, q);
    ShortsQueryTail(id, q);
    WwwTail("shorts/" + id + "?" + q);
  }

  lemma ShortsQueryParses(id: string, q: string)
    requires AllIdChars(id) && NoUnsafe(q) && '#' !in q
    ensures Parse(ShortsUrl(id) + "?" + q) == Url("https", "www.youtube.com", "/shorts/" + id, "", q, "")
  {
    IdCharsAreUrlSafe(id);
    ShortsQueryUrlParts(id, q);
    WwwYouTubeHost();
    LowerPath("/shorts/");
    PlainPathConcat("/shorts/", id);
    HttpsQueryLink("www.youtube.com", "/shorts/" + id, q);
  }

  /** The youtu.be, watch and shorts forms of one video give the same job. */
  lemma YouTubeFormsAgree(requester: Requester, id: string)
    requires |id| == 11 && AllIdChars(id)
    ensures Resolve(Registered, requester, "https://youtu.be/" + id)
         == Resolve(Registered, requester, "https://www.youtube.com/watch?v=" + id)
         == Resolve(Registered, requester, "https://www.youtube.com/shorts/" + id)
         == Accepted(Job(requester, YouTube, id, "https://www.youtube.com/watch?v=" + id,
                         Some("https://img.youtube.com/vi/" + id + "/hqdefault.jpg")))
  {
    ShortLinkResolves(requester, id);
    WatchLinkResolves(requester, id);
    ShortsLinkResolves(requester, id);
  }

  /** Resolving the canonical URL of a YouTube job whose id is made of id characters gives that job back. */
  lemma CanonicalUrlIsStable(requester: Requester, link: string)
    requires Resolve(Registered, requester, link).Accepted?
    requires Resolve(Registered, requester, link).job.source == YouTube
    requires AllIdChars(Resolve(Registered, requester, link).job.mediaId)
    ensures var job := Resolve(Registered, requester, link).job;
            Resolve(Registered, requester, job.canonicalUrl) == Accepted(job)
  {
    var job := Resolve(Registered, requester, link).job;
    var i := FirstHandler(Registered, link);
    assert Registered[i] == YouTube;
    assert YouTubeCreateJob(requester, link) == Some(job);
    WatchLinkResolves(requester, job.mediaId);
  }

  // ----------------------------------------------------------- Reddit links

  /** Word characters are never URL delimiters. */
  lemma WordCharsAreUrlSafe(s: string)
    requires AllWordChars(s)
    ensures '?' !in s && '#' !in s && ';' !in s && '/' !in s && NoUnsafe(s)
  {
    forall k | 0 <= k < |s|
      ensures s[k] !in {'?', '#', ';', '/', '\t', '\r', '\n'}
    {
      assert IsWordChar(s[k]);
    }
  }

  /** A host that starts with neither 'w' nor 'y' (after an optional "www.") is not YouTube's. */
  lemma NotYouTubeHost(rest: string)
    requires rest != [] && rest[0] != 'w' && rest[0] != 'y'
    ensures !YouTubeCanHandle("https://" + rest) && !YouTubeCanHandle("https://www." + rest)
  {
    var l1 := "https://" + rest;
    assert l1[..8] == "https://" && l1[8..] == rest;
    var l2 := "https://www." + rest;
    assert l2[..8] == "https://" && l2[8..] == "www." + rest;
    assert ("www." + rest)[..4] == "www." && ("www." + rest)[4..] == rest;
    assert !StartsWith(rest, "www.");
    assert !StartsWith(rest, "youtube.com/") && !StartsWith(rest, "youtu.be/");
  }

  /** A link YouTube refuses and Reddit accepts resolves to Reddit's job. */
  lemma ResolveReddit(requester: Requester, link: string)
    requires !YouTubeCanHandle(link) && RedditCanHandle(link)
    ensures Resolve(Registered, requester, link) == Accepted(Job(requester, Reddit, RedditMediaId(link), link, None))
  {
    assert !CanHandle(Registered[0], link) && CanHandle(Registered[1], link);
    assert FirstHandler(Registered, link) == 1;
  }

  lemma RedditHost()
    ensures PlainHost("www.reddit.com") && Lower("www.reddit.com") == "www.reddit.com"
    ensures EndsWith("www.reddit.com", "reddit.com") && !EndsWith("www.reddit.com", "v.redd.it")
  {
    LowerDottedHost("www.reddit.com");
    LowerPlainHost("www.reddit.com");
  }

  lemma VRedditHost()
    ensures PlainHost("v.redd.it") && Lower("v.redd.it") == "v.redd.it" && EndsWith("v.redd.it", "v.redd.it")
  {
    LowerDottedHost("v.redd.it");
    LowerPlainHost("v.redd.it");
  }

  /** A separator-free segment followed by nothing or by a separator is the first part of the split. */
  lemma SplitFrom(seg: string, rest: string)
    requires '/' !in seg && (rest == [] || rest[0] == '/')
    ensures Split(seg + rest, '/') == [seg] + (if rest == [] then [] else Split(rest[1..], '/'))
  {
    if rest == [] {
      assert seg + rest == seg;
      assert IndexOf(seg, '/') == |seg|;
    } else {
      assert seg + rest == seg + ['/'] + rest[1..];
      SplitAfter(seg, '/', rest[1..]);
    }
  }

  /** Off v.redd.it, a path with a segment after "comments" is named by that segment. */
  lemma NameAfterComments(path: string, parts: seq<string>, c: nat)
    requires NonEmpty(Split(path, '/')) == parts
    requires c == IndexOf(parts, "comments") && c + 1 < |parts|
    ensures RedditName(false, path) == parts[c + 1]
  {
  }

  /** The first "comments" of `a + ["comments", post] + b` is the one after `a` when `a` has none. */
  lemma CommentsIndexAfter(a: seq<string>, post: string, b: seq<string>)
    requires "comments" !in a
    ensures IndexOf(a + ["comments", post] + b, "comments") == |a|
  {
    var s := a + ["comments", post] + b;
    assert s[|a|] == "comments";
    assert forall k :: 0 <= k < |a| ==> s[k] == a[k];
  }

  lemma CommentsPostKept(post: string)
    requires post != []
    ensures NonEmpty(["comments", post]) == ["comments", post]
  {
    var ps := ["comments", post];
    assert NonEmpty(ps[1..]) == [post] by { assert ps[1..][1..] == []; }
  }

  /**
    Off v.redd.it, the segment after the first "comments" names the link,
    whatever path `p` comes before it and whatever segments follow it.
   */
  lemma CommentsSegment(p: string, post: string, rest: string)
    requires "comments" !in NonEmpty(Split(p, '/'))
    requires post != [] && '/' !in post && (rest == [] || rest[0] == '/')
    ensures RedditName(false, p + "/comments/" + post + rest) == post
  {
    var path := p + "/comments/" + post + rest;
    var pre := Split(p, '/');
    var tail := if rest == [] then [] else Split(rest[1..], '/');
    CommentsSplit(p, post, rest, tail);
    NonEmptyConcat(pre + ["comments", post], tail);
    NonEmptyConcat(pre, ["comments", post]);
    CommentsPostKept(post);
    var kept := NonEmpty(pre);
    var parts := kept + ["comments", post] + NonEmpty(tail);
    CommentsIndexAfter(kept, post, NonEmpty(tail));
    assert parts[|kept| + 1] == post;
    NameAfterComments(path, parts, |kept|);
  }

  /** The split of a comments path: the parts of `p`, then "comments" and the post, then the rest's parts. */
  lemma CommentsSplit(p: string, post: string, rest: string, tail: seq<string>)
    requires '/' !in post && (rest == [] || rest[0] == '/')
    requires tail == if rest == [] then [] else Split(rest[1..], '/')
    ensures Split(p + "/comments/" + post + rest, '/') == Split(p, '/') + ["comments", post] + tail
  {
    CommentsWord();
    CommentsPathCut(p, post, rest);
    SplitConcat(p, '/', "comments" + ['/'] + (post + rest));
    SplitAfter("comments", '/', post + rest);
    SplitFrom(post, rest);
    var pre := Split(p, '/');
    assert Split("comments" + ['/'] + (post + rest), '/') == ["comments"] + ([post] + tail);
    PairBetween(pre, "comments", post, tail);
  }

  lemma PairBetween(a: seq<string>, x: string, y: string, b: seq<string>)
    ensures a + ([x] + ([y] + b)) == a + [x, y] + b
  {
    assert [x] + ([y] + b) == [x, y] + b;
  }

  lemma CommentsWord()
    ensures '/' !in "comments" && "/comments/" == ['/'] + "comments" + ['/']
  {
  }

  lemma CommentsPathCut(p: string, post: string, rest: string)
    requires "/comments/" == ['/'] + "comments" + ['/']
    ensures p + "/comments/" + post + rest == p + ['/'] + ("comments" + ['/'] + (post + rest))
  {
  }

  /** `https://www.reddit.com<path>` cut where the parser and the YouTube test look. */
  lemma RedditLinkForms(path: string)
    ensures "https://www.reddit.com" + path == "https://" + "www.reddit.com" + path
    ensures "https://www.reddit.com" + path == "https://www." + ("reddit.com" + path)
  {
    assert "https://" + "www.reddit.com" == "https://www.reddit.com";
    assert "https://www." + "reddit.com" == "https://www.reddit.com";
  }

  /** A www.reddit.com link is Reddit's, and is named by the name rules off v.redd.it. */
  lemma ResolveRedditCom(requester: Requester, path: string)
    requires PlainPath(path)
    ensures var link := "https://www.reddit.com" + path;
            Resolve(Registered, requester, link) == Accepted(Job(requester, Reddit, "reddit_" + RedditName(false, path), link, None))
  {
    var link := "https://www.reddit.com" + path;
    RedditLinkForms(path);
    NotYouTubeHost("reddit.com" + path);
    RedditHost();
    HttpsLink("www.reddit.com", path);
    ResolveReddit(requester, link);
  }

  lemma CommentsPathPlain(p: string, post: string, rest: string)
    requires PlainPath(p) && PlainPath(rest) && AllWordChars(post)
    ensures PlainPath(p + "/comments/" + post + rest)
  {
    WordCharsAreUrlSafe(post);
    LowerPath("/comments/");
    var path := p + "/comments/" + post + rest;
    assert p == [] ==> path[0] == '/';
    assert p != [] ==> path[0] == p[0];
  }

  /**
    A reddit.com comments link takes the post id that follows the first
    "comments" segment, with any path before it and any segments (such as the
    post's title) after it.
   */
  lemma CommentsLinkResolves(requester: Requester, p: string, post: string, rest: string)
    requires PlainPath(p) && PlainPath(rest) && post != [] && AllWordChars(post)
    requires "comments" !in NonEmpty(Split(p, '/'))
    ensures var link := "https://www.reddit.com" + (p + "/comments/" + post + rest);
            Resolve(Registered, requester, link) == Accepted(Job(requester, Reddit, "reddit_" + post, link, None))
  {
    var path := p + "/comments/" + post + rest;
    CommentsPathPlain(p, post, rest);
    WordCharsAreUrlSafe(post);
    CommentsSegment(p, post, rest);
    ResolveRedditCom(requester, path);
  }

  /**
    A reddit.com link with no "comments" segment falls through to the last
    rule: the sanitised path names it.
   */
  lemma FallbackLinkResolves(requester: Requester, path: string)
    requires PlainPath(path) && "comments" !in NonEmpty(Split(path, '/'))
    ensures var link := "https://www.reddit.com" + path;
            Resolve(Registered, requester, link) == Accepted(Job(requester, Reddit, "reddit_" + SanitisedName(path), link, None))
  {
    ResolveRedditCom(requester, path);
    assert RedditName(false, path) == SanitisedName(path);
  }

  /** The www.reddit.com prefix of a `/r/` link, cut at the scheme and at the `www.` label. */
  lemma RedditPrefixes(tail: string)
    ensures "https://" + "www.reddit.com" + ("/r/" + tail) == "https://www.reddit.com/r/" + tail
    ensures "https://www." + ("reddit.com" + ("/r/" + tail)) == "https://www.reddit.com/r/" + tail
  {
    assert "https://" + "www.reddit.com" + "/r/" == "https://www.reddit.com/r/";
    assert "https://www." + "reddit.com" + "/r/" == "https://www.reddit.com/r/";
  }

  /** Off v.redd.it, a subreddit path has no post id, so the fallback joins its segments with '_'. */
  lemma SubredditName(sub: string)
    requires sub != [] && AllWordChars(sub)
    ensures RedditName(false, "/r/" + sub) == "r_" + sub
  {
    SubredditParts(sub);
    assert ["r", sub][0] != "comments";
    SubredditFallback(sub);
  }

  lemma SubredditParts(sub: string)
    requires sub != [] && AllWordChars(sub)
    ensures NonEmpty(Split("/r/" + sub, '/')) == ["r", sub]
  {
    WordCharsAreUrlSafe(sub);
    var ps := [[], "r", sub];
    SubredditJoin(sub, ps);
    JoinSplit(ps, '/');
    SubredditNonEmpty(sub, ps);
  }

  lemma SubredditJoin(sub: string, ps: seq<string>)
    requires ps == [[], "r", sub]
    ensures JoinWith(ps, '/') == "/r/" + sub
  {
    assert JoinWith(ps[1..], '/') == "r/" + sub by { assert ps[1..][1..] == [sub]; }
  }

  lemma SubredditNonEmpty(sub: string, ps: seq<string>)
    requires sub != [] && ps == [[], "r", sub]
    ensures NonEmpty(ps) == ["r", sub]
  {
    assert NonEmpty(ps[2..]) == [sub] by { assert ps[2..][1..] == []; }
    assert ps[1..][1..] == ps[2..];
  }

  /** The fallback name of `/r/<sub>`. */
  lemma SubredditFallback(sub: string)
    requires sub != [] && AllWordChars(sub)
    ensures SanitisedName("/r/" + sub) == "r_" + sub
  {
    WordCharsAreUrlSafe(sub);
    SubredditStrip(sub);
    SubredditReplace(sub);
  }

  lemma SubredditStrip(sub: string)
    requires sub != [] && '/' !in sub
    ensures Strip("/r/" + sub, '/') == "r/" + sub
  {
    var x := "r/" + sub;
    assert x[0] == 'r' && x[|x| - 1] == sub[|sub| - 1] && sub[|sub| - 1] in sub;
    StripLeading('/', x);
    assert "/r/" + sub == ['/'] + x;
  }

  lemma SubredditReplace(sub: string)
    requires AllWordChars(sub)
    ensures ReplaceNonWordRuns("r/" + sub) == "r_" + sub
  {
    OneCharRun('r', '/', sub);
  }

  lemma OneCharRun(c: char, d: char, b: string)
    requires IsWordChar(c) && !IsWordChar(d) && AllWordChars(b)
    ensures ReplaceNonWordRuns([c, d] + b) == [c, '_'] + b
  {
    PairThen(c, d, b);
    PairThen(c, '_', b);
    WordThen(c, [d] + b);
    RunThenWords(d, b);
  }

  lemma PairThen(x: char, y: char, b: string)
    ensures [x, y] + b == [x] + ([y] + b)
  {
  }

  lemma RunThenWords(d: char, b: string)
    requires !IsWordChar(d) && AllWordChars(b)
    ensures ReplaceNonWordRuns([d] + b) == "_" + b
  {
    assert NoWordChars([d]);
    RunThen([d], b);
  }

  function SubredditUrl(sub: string): string {
    "https://www.reddit.com/r/" + sub
  }

  lemma SubredditUrlParts(sub: string)
    ensures SubredditUrl(sub) == "https://" + "www.reddit.com" + ("/r/" + sub)
    ensures SubredditUrl(sub) == "https://www." + ("reddit.com/r/" + sub)
  {
    RedditPrefixes(sub);
    assert "reddit.com" + ("/r/" + sub) == "reddit.com/r/" + sub;
  }

  /** A subreddit link parses into the www.reddit.com host and the `/r/<sub>` path. */
  lemma SubredditUrlParses(sub: string)
    requires sub != [] && AllWordChars(sub)
    ensures Parse(SubredditUrl(sub)) == Url("https", "www.reddit.com", "/r/" + sub, "", "", "")
  {
    WordCharsAreUrlSafe(sub);
    SubredditUrlParts(sub);
    RedditHost();
    LowerPath("/r/");
    HttpsDirLink("www.reddit.com", "/r/", sub);
  }

  /** Reddit names a subreddit link after its path, with '_' for the separator. */
  lemma SubredditRedditJob(sub: string)
    requires sub != [] && AllWordChars(sub)
    ensures RedditCanHandle(SubredditUrl(sub))
    ensures RedditMediaId(SubredditUrl(sub)) == "reddit_r_" + sub
  {
    SubredditUrlParses(sub);
    RedditHost();
    WordCharsAreUrlSafe(sub);
    SubredditName(sub);
    SubredditId(sub);
  }

  lemma SubredditId(sub: string)
    ensures "reddit_" + ("r_" + sub) == "reddit_r_" + sub
  {
  }

  /** A subreddit link, which names no post, takes the fallback name built from its path. */
  lemma SubredditLinkResolves(requester: Requester, sub: string)
    requires sub != [] && AllWordChars(sub)
    ensures var link := "https://www.reddit.com/r/" + sub;
            Resolve(Registered, requester, link) == Accepted(Job(requester, Reddit, "reddit_r_" + sub, link, None))
  {
    SubredditUrlParts(sub);
    NotYouTubeHost("reddit.com/r/" + sub);
    SubredditRedditJob(sub);
    ResolveReddit(requester, SubredditUrl(sub));
  }

  /** On a v.redd.it host the name is the first segment, whatever segments follow it. */
  lemma VRedditFirstSegment(video: string, rest: string)
    requires video != [] && '/' !in video && (rest == [] || rest[0] == '/')
    ensures RedditName(true, "/" + video + rest) == video
  {
    var tail := if rest == [] then [] else Split(rest[1..], '/');
    VRedditSplit(video, rest, tail);
    NonEmptyConcat([[], video], tail);
    var ps: seq<string> := [[], video];
    assert NonEmpty(ps[1..]) == [video] by { assert ps[1..][1..] == []; }
  }

  /** The split of a rooted path: the empty part before the root, the first segment, then the rest's parts. */
  lemma VRedditSplit(video: string, rest: string, tail: seq<string>)
    requires '/' !in video && (rest == [] || rest[0] == '/')
    requires tail == if rest == [] then [] else Split(rest[1..], '/')
    ensures Split("/" + video + rest, '/') == [[], video] + tail
  {
    var e: string := [];
    RootCut(video, rest);
    SplitConcat(e, '/', video + rest);
    assert Split(e, '/') == [e];
    SplitFrom(video, rest);
    PairBetween([], e, video, tail);
  }

  lemma RootCut(video: string, rest: string)
    ensures "/" + video + rest == [] + ['/'] + (video + rest)
  {
  }

  lemma VRedditLinkForms(path: string)
    ensures "https://v.redd.it" + path == "https://" + "v.redd.it" + path
    ensures "https://v.redd.it" + path == "https://" + ("v.redd.it" + path)
  {
  }

  /** A v.redd.it link takes its first path segment, whatever segments follow it. */
  lemma VRedditLinkResolves(requester: Requester, video: string, rest: string)
    requires video != [] && AllWordChars(video) && PlainPath(rest)
    ensures var link := "https://v.redd.it" + ("/" + video + rest);
            Resolve(Registered, requester, link) == Accepted(Job(requester, Reddit, "reddit_" + video, link, None))
  {
    var path := "/" + video + rest;
    var link := "https://v.redd.it" + path;
    WordCharsAreUrlSafe(video);
    assert PlainPath(path);
    VRedditLinkForms(path);
    NotYouTubeHost("v.redd.it" + path);
    VRedditHost();
    HttpsLink("v.redd.it", path);
    VRedditFirstSegment(video, rest);
    ResolveReddit(requester, link);
  }

  // --------------------------------------------------------------- examples

  lemma ExampleIdChars()
    ensures AllIdChars("dQw4w9WgXcQ") && "dQw4w9WgXcQ" != []
  {
    var id := "dQw4w9WgXcQ";
    forall k | 0 <= k < |id| ensures IsIdChar(id[k]) {
      assert id[k] in {'d', 'Q', 'w', '4', '9', 'W', 'g', 'X', 'c'};
    }
  }

  lemma ExampleUrls()
    ensures "https://youtu.be/" + "dQw4w9WgXcQ" == "https://youtu.be/dQw4w9WgXcQ"
    ensures WatchUrl("dQw4w9WgXcQ") == "https://www.youtube.com/watch?v=dQw4w9WgXcQ"
    ensures ThumbnailUrl("dQw4w9WgXcQ") == "https://img.youtube.com/vi/dQw4w9WgXcQ/hqdefault.jpg"
  {
    ExampleShortUrl();
    ExampleWatchUrl();
    ExampleThumbnailUrl();
  }

  lemma ExampleShortUrl()
    ensures "https://youtu.be/" + "dQw4w9WgXcQ" == "https://youtu.be/dQw4w9WgXcQ"
  {
  }

  lemma ExampleWatchUrl()
    ensures WatchUrl("dQw4w9WgXcQ") == "https://www.youtube.com/watch?v=dQw4w9WgXcQ"
  {
  }

  lemma ExampleThumbnailUrl()
    ensures ThumbnailUrl("dQw4w9WgXcQ") == "https://img.youtube.com/vi/dQw4w9WgXcQ/hqdefault.jpg"
  {
  }

  /** https://youtu.be/dQw4w9WgXcQ becomes the watch URL of dQw4w9WgXcQ with its thumbnail. */
  lemma ShortLinkExample(requester: Requester)
    ensures Resolve(Registered, requester, "https://youtu.be/dQw4w9WgXcQ")
         == Accepted(Job(requester, YouTube, "dQw4w9WgXcQ", "https://www.youtube.com/watch?v=dQw4w9WgXcQ",
                         Some("https://img.youtube.com/vi/dQw4w9WgXcQ/hqdefault.jpg")))
  {
    ExampleIdChars();
    ExampleUrls();
    ShortLinkResolves(requester, "dQw4w9WgXcQ");
  }

  lemma ExampleHost()
    ensures PlainHost("example.com") && Lower("example.com") == "example.com"
    ensures !EndsWith("example.com", "reddit.com") && !EndsWith("example.com", "v.redd.it")
  {
    LowerDottedHost("example.com");
    LowerPlainHost("example.com");
  }

  /** A link of no registered source is refused as unsupported. */
  lemma UnsupportedExample(requester: Requester)
    ensures Resolve(Registered, requester, "https://example.com/video") == Unsupported
  {
    var link := "https://example.com/video";
    ExampleNotYouTube();
    ExampleNotReddit();
    assert !CanHandle(Registered[0], link) && !CanHandle(Registered[1], link);
  }

  lemma ExampleLinkParts()
    ensures "https://example.com/video" == "https://" + "example.com/video"
    ensures "https://example.com/video" == "https://" + "example.com" + "/video"
  {
  }

  lemma ExampleNotYouTube()
    ensures !YouTubeCanHandle("https://example.com/video")
  {
    ExampleLinkParts();
    NotYouTubeHost("example.com/video");
  }

  lemma ExampleNotReddit()
    ensures !RedditCanHandle("https://example.com/video")
  {
    ExampleLinkParts();
    ExampleHost();
    LowerPath("/video");
    HttpsLink("example.com", "/video");
  }

  lemma EmptyShortPath()
    ensures Strip("//", '/') == []
  {
  }

  /** A youtu.be link whose path holds only separators has the YouTube shape but yields no job. */
  lemma EmptyShortLinkIsMalformed(requester: Requester)
    ensures Resolve(Registered, requester, "https://youtu.be//") == Malformed
  {
    EmptyShortLinkShape();
    EmptyShortLinkParses();
    EmptyShortPath();
    ShortHostId("https://youtu.be//");
    ResolveYouTube(requester, "https://youtu.be//");
  }

  lemma EmptyShortLinkShape()
    ensures YouTubeCanHandle("https://youtu.be//")
  {
    ShortTail("/");
    assert "https://youtu.be/" + "/" == "https://youtu.be//";
  }

  lemma EmptyShortLinkParses()
    ensures Parse("https://youtu.be//") == Url("https", "youtu.be", "//", "", "", "")
  {
    assert "https://youtu.be" + "//" == "https://youtu.be//";
    ShortLinkParses("//");
  }

  /** On the youtu.be host the video id is the path without its separators. */
  lemma ShortHostId(link: string)
    requires Parse(link).netloc == "youtu.be"
    ensures ExtractVideoId(link) == Some(Strip(Parse(link).path, '/'))
  {
    YoutuBeHost();
  }
}
