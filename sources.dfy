/**
  The media-source strategies of cogs/Winston.py: YouTube and Reddit each
  decide whether they accept a link, derive a job (media id, canonical URL,
  optional thumbnail) and build the yt-dlp argument vector; resolution walks
  the ordered strategy list and the first strategy that accepts wins.
 */
module MediaSources {
  import opened Wrappers
  import opened Strings
  import opened Urls
  import Paths

  /** A registered strategy; `Id` is its `id` class attribute. */
  datatype Source = YouTube | Reddit {
    function Id(): string {
      match this
      case YouTube => "youtube"
      case Reddit => "reddit"
    }
  }

  /** The strategies in the order the cog registers them. */
  const Registered: seq<Source> := [YouTube, Reddit]

  /** The Discord interaction a job answers to; the core never looks inside it. */
  type Requester = nat

  /** A `TranscriptionJob`. */
  datatype Job = Job(requester: Requester, source: Source, mediaId: string, canonicalUrl: string, thumbnail: Option<string>)

  /** What resolving a submitted link gives. */
  datatype Submission = Unsupported | Malformed | Accepted(job: Job)

  // ---------------------------------------------------------------- YouTube

  /** `[a-zA-Z0-9_-]` */
  predicate IsIdChar(c: char) {
    IsAsciiLetter(c) || IsDigit(c) || c == '_' || c == '-'
  }

  predicate AllIdChars(s: string) {
    forall k :: 0 <= k < |s| ==> IsIdChar(s[k])
  }

  /** The text after `(https?://)?`: the link without an http or https scheme prefix. */
  function DropScheme(s: string): string {
    if StartsWith(s, "https://") then s[8..] else if StartsWith(s, "http://") then s[7..] else s
  }

  /** The text after `(www\.)?`. */
  function DropWww(a: string): string {
    if StartsWith(a, "www.") then a[4..] else a
  }

  /** The text after `(youtube\.com|youtu\.be)/`, when one of the two hosts comes first. */
  function HostTail(b: string): Option<string> {
    if StartsWith(b, "youtube.com/") then Some(b[12..])
    else if StartsWith(b, "youtu.be/") then Some(b[9..])
    else None
  }

  /** The text after `^(https?://)?(www\.)?(youtube\.com|youtu\.be)/`, when that prefix matches. */
  function YouTubeTail(s: string): Option<string> {
    HostTail(DropWww(DropScheme(s)))
  }

  /** `.+$`: one or more characters other than a line feed, then the end or a final line feed. */
  predicate DotPlusAtEnd(t: string) {
    var body := if |t| >= 2 && t[|t| - 1] == '\n' then t[..|t| - 1] else t;
    body != [] && '\n' !in body
  }

  /** The texts each optional group and the host alternative of the YouTube pattern can match. */
  const Schemes: set<string> := {"https://", "http://", ""}
  const WwwPrefixes: set<string> := {"www.", ""}
  const YouTubeHosts: set<string> := {"youtube.com/", "youtu.be/"}

  /**
    `YouTubeSource.can_handle`: `YOUTUBE_REGEX.match(link)`. The link starts
    with one of the twelve texts the pattern's prefix can match, and the
    rest satisfies `.+$`.
   */
  function YouTubeCanHandle(link: string): (ok: bool)
    ensures ok <==> exists s, w, h :: s in Schemes && w in WwwPrefixes && h in YouTubeHosts
                      && StartsWith(link, s + w + h) && DotPlusAtEnd(link[|s + w + h|..])
  {
    YouTubePrefixes(link);
    YouTubeTail(link).Some? && DotPlusAtEnd(YouTubeTail(link).value)
  }

  /**
    The greedy reading of the optional groups in `YouTubeTail` finds a
    prefix exactly when some choice of the groups does, and every choice
    that matches leaves the same tail (the pattern never needs to backtrack).
   */
  lemma YouTubePrefixes(link: string)
    ensures YouTubeTail(link).Some? ==>
              exists s, w, h :: s in Schemes && w in WwwPrefixes && h in YouTubeHosts && StartsWith(link, s + w + h)
    ensures forall s, w, h :: s in Schemes && w in WwwPrefixes && h in YouTubeHosts && StartsWith(link, s + w + h) ==>
              YouTubeTail(link) == Some(link[|s + w + h|..])
  {
    if YouTubeTail(link).Some? {
      var s := if StartsWith(link, "https://") then "https://" else if StartsWith(link, "http://") then "http://" else "";
      var a := DropScheme(link);
      var w := if StartsWith(a, "www.") then "www." else "";
      var b := DropWww(a);
      var h := if StartsWith(b, "youtube.com/") then "youtube.com/" else "youtu.be/";
      assert a == link[|s|..] && b == a[|w|..] && StartsWith(a, w) && StartsWith(b, h);
      PrefixesChain(link, s, w, h);
    }
    forall s, w, h | s in Schemes && w in WwwPrefixes && h in YouTubeHosts && StartsWith(link, s + w + h)
      ensures YouTubeTail(link) == Some(link[|s + w + h|..])
    {
      PrefixTail(link, s, w, h);
    }
  }

  /** A link starting with `s`, then `w` after it, then `h` after that, starts with `s + w + h`. */
  lemma PrefixesChain(x: string, s: string, w: string, h: string)
    requires StartsWith(x, s) && StartsWith(x[|s|..], w) && StartsWith(x[|s|..][|w|..], h)
    ensures StartsWith(x, s + w + h)
  {
    var p := s + w + h;
    forall k | 0 <= k < |p| ensures x[k] == p[k] {
      if k < |s| {
      } else if k < |s| + |w| {
        assert x[|s|..][k - |s|] == x[k];
      } else {
        assert x[|s|..][|w|..][k - |s| - |w|] == x[k];
      }
    }
  }

  /** Each of the twelve prefixes leaves the rest of the link as the tail. */
  lemma PrefixTail(link: string, s: string, w: string, h: string)
    requires s in Schemes && w in WwwPrefixes && h in YouTubeHosts && StartsWith(link, s + w + h)
    ensures YouTubeTail(link) == Some(link[|s + w + h|..])
  {
    GroupStarts(w, h);
    var a, b := PrefixGroups(link, s, w, h);
    DropSchemeOf(link, s);
    DropWwwOf(a, w);
    HostTailOf(b, h);
  }

  /** Both hosts start with 'y', and the www group starts with 'w'. */
  lemma GroupStarts(w: string, h: string)
    requires w in WwwPrefixes && h in YouTubeHosts
    ensures h != [] && h[0] == 'y' && (w + h)[0] in {'w', 'y'}
  {
  }

  /** The texts that follow the scheme group and the www group of a matching prefix. */
  lemma PrefixGroups(link: string, s: string, w: string, h: string) returns (a: string, b: string)
    requires h != [] && h[0] == 'y' && (w + h)[0] in {'w', 'y'} && StartsWith(link, s + w + h)
    ensures |link| > |s| && StartsWith(link, s) && link[|s|] in {'w', 'y'} && a == link[|s|..]
    ensures |a| > |w| && StartsWith(a, w) && a[|w|] == 'y' && b == a[|w|..]
    ensures StartsWith(b, h) && b[|h|..] == link[|s + w + h|..]
  {
    assert s + w + h == s + (w + h);
    PrefixSplit(link, s, w + h);
    a := link[|s|..];
    PrefixSplit(a, w, h);
    b := a[|w|..];
    assert a[0] == (w + h)[0] && b[0] == h[0];
  }

  /** A text starting with `p + q` starts with `p`, and `q` follows it. */
  lemma PrefixSplit(x: string, p: string, q: string)
    requires StartsWith(x, p + q)
    ensures StartsWith(x, p) && StartsWith(x[|p|..], q)
  {
    assert x[..|p|] == (p + q)[..|p|] == p;
    assert x[|p|..][..|q|] == (p + q)[|p|..] == q;
  }

  lemma DropSchemeOf(link: string, s: string)
    requires s in Schemes && |link| > |s| && StartsWith(link, s) && link[|s|] in {'w', 'y'}
    ensures DropScheme(link) == link[|s|..]
  {
    if s == "http://" {
      assert link[4] == s[4] == ':';
      assert !StartsWith(link, "https://") by { if |link| >= 8 { assert link[..8][4] == ':'; } }
    } else if s == "" {
      assert !StartsWith(link, "https://") by { if |link| >= 8 { assert link[..8][0] == link[0]; } }
      assert !StartsWith(link, "http://") by { if |link| >= 7 { assert link[..7][0] == link[0]; } }
    }
  }

  lemma DropWwwOf(a: string, w: string)
    requires w in WwwPrefixes && |a| > |w| && StartsWith(a, w) && a[|w|] == 'y'
    ensures DropWww(a) == a[|w|..]
  {
    if w == "" {
      assert !StartsWith(a, "www.") by { if |a| >= 4 { assert a[..4][0] == a[0]; } }
    }
  }

  lemma HostTailOf(b: string, h: string)
    requires h in YouTubeHosts && StartsWith(b, h)
    ensures HostTail(b) == Some(b[|h|..])
  {
    if h == "youtu.be/" {
      assert b[5] == h[5] == '.';
      assert !StartsWith(b, "youtube.com/") by { if |b| >= 12 { assert b[..12][5] == '.'; } }
    }
  }

  const ShortsMarker: string := "youtube.com/shorts/"

  /** `youtube\.com/shorts/([a-zA-Z0-9_-]{11})` matches at the start of `s`. */
  predicate ShortsAt(s: string) {
    StartsWith(s, ShortsMarker) && |s| >= 30 && AllIdChars(s[19..30])
  }

  /**
    The leftmost position of `s` at which `at` holds of the suffix, or
    `|s| + 1` when it holds at none: where `re.search` finds its match.
   */
  function Leftmost(s: string, at: string -> bool): (i: nat)
    ensures i <= |s| + 1
    ensures i <= |s| ==> at(s[i..])
    ensures forall j :: 0 <= j < i && j <= |s| ==> !at(s[j..])
    decreases |s|
  {
    assert s[0..] == s;
    if at(s) then 0
    else if s == [] then 1
    else
      var j := Leftmost(s[1..], at);
      assert forall k :: 1 <= k <= |s| ==> s[1..][k - 1..] == s[k..];
      1 + j
  }

  /** `re.search` for the shorts pattern: the group of the leftmost match. */
  function SearchShorts(s: string): (r: Option<string>)
    ensures r.None? <==> forall i :: 0 <= i <= |s| ==> !ShortsAt(s[i..])
    ensures r.Some? ==> exists i :: 0 <= i <= |s| && ShortsAt(s[i..]) && (forall j :: 0 <= j < i ==> !ShortsAt(s[j..]))
                                    && r.value == s[i + 19..i + 30]
    ensures r.Some? ==> |r.value| == 11 && AllIdChars(r.value)
  {
    var i := Leftmost(s, ShortsAt);
    assert i <= |s| ==> s[i..][19..30] == s[i + 19..i + 30];
    ShortsGroup(s, i)
  }

  /** The eleven characters the shorts pattern captures when its match starts at `i`. */
  function ShortsGroup(s: string, i: nat): Option<string> {
    if i + 30 <= |s| then Some(s[i + 19..i + 30]) else None
  }

  /** `(?:v=|youtu\.be/)([a-zA-Z0-9_-]{11})` matches at the start of `s`. */
  predicate MarkedIdAt(s: string) {
    (StartsWith(s, "v=") && |s| >= 13 && AllIdChars(s[2..13]))
    || (StartsWith(s, "youtu.be/") && |s| >= 20 && AllIdChars(s[9..20]))
  }

  /** `re.search` for the fallback pattern: the group of the leftmost match, after whichever marker it has. */
  function SearchMarkedId(s: string): (r: Option<string>)
    ensures r.None? <==> forall i :: 0 <= i <= |s| ==> !MarkedIdAt(s[i..])
    ensures r.Some? ==> exists i :: 0 <= i <= |s| && MarkedIdAt(s[i..]) && (forall j :: 0 <= j < i ==> !MarkedIdAt(s[j..]))
                                    && r.value == (if StartsWith(s[i..], "v=") then s[i + 2..i + 13] else s[i + 9..i + 20])
    ensures r.Some? ==> |r.value| == 11 && AllIdChars(r.value)
  {
    var i := Leftmost(s, MarkedIdAt);
    if i <= |s| then
      if StartsWith(s[i..], "v=") then
        assert !StartsWith(s[i..], "youtu.be/") by { assert s[i..][0] == 'v'; }
        assert s[i..][2..13] == s[i + 2..i + 13];
        Some(s[i + 2..i + 13])
      else
        assert s[i..][9..20] == s[i + 9..i + 20];
        Some(s[i + 9..i + 20])
    else None
  }

  /** A prefix at none of whose positions `at` holds shifts the leftmost position by its length. */
  lemma LeftmostAfter(p: string, s: string, at: string -> bool)
    requires forall j :: 0 <= j < |p| ==> !at((p + s)[j..])
    ensures Leftmost(p + s, at) == |p| + Leftmost(s, at)
  {
    var ps := p + s;
    forall j | |p| <= j <= |ps| ensures ps[j..] == s[j - |p|..] {
    }
    var m := Leftmost(s, at);
    var i := Leftmost(ps, at);
    if m <= |s| {
      assert at(ps[|p| + m..]);
    }
  }

  /** A prefix without 'y' holds no start of a shorts match. */
  lemma SearchShortsSkips(x: string, n: nat)
    requires n <= |x| && 'y' !in x[..n]
    ensures SearchShorts(x) == SearchShorts(x[n..])
  {
    ShortsGroupSkips(x, n);
    SearchShortsGroup(x[n..]);
    SearchShortsGroup(x);
  }

  lemma ShortsGroupSkips(x: string, n: nat)
    requires n <= |x| && 'y' !in x[..n]
    ensures ShortsGroup(x, Leftmost(x, ShortsAt)) == ShortsGroup(x[n..], Leftmost(x[n..], ShortsAt))
  {
    var p, s := x[..n], x[n..];
    assert x == p + s;
    ShortsGroupConcat(p, s);
  }

  lemma ShortsGroupConcat(p: string, s: string)
    requires 'y' !in p
    ensures ShortsGroup(p + s, Leftmost(p + s, ShortsAt)) == ShortsGroup(s, Leftmost(s, ShortsAt))
  {
    ShortsShift(p, s);
    ShiftedGroup(p, s, Leftmost(s, ShortsAt), Leftmost(p + s, ShortsAt));
  }

  lemma SearchShortsGroup(s: string)
    ensures SearchShorts(s) == ShortsGroup(s, Leftmost(s, ShortsAt))
  {
  }

  lemma ShortsShift(p: string, s: string)
    requires 'y' !in p
    ensures Leftmost(p + s, ShortsAt) == |p| + Leftmost(s, ShortsAt)
  {
    NoShortsIn(p, s);
    LeftmostAfter(p, s, ShortsAt);
  }

  lemma NoShortsIn(p: string, s: string)
    requires 'y' !in p
    ensures forall j :: 0 <= j < |p| ==> !ShortsAt((p + s)[j..])
  {
    var ps := p + s;
    forall j | 0 <= j < |p| ensures !ShortsAt(ps[j..]) {
      assert ps[j..][0] == p[j] != 'y';
    }
  }

  lemma ShiftedGroup(p: string, s: string, m: nat, i: nat)
    requires i == |p| + m
    ensures ShortsGroup(p + s, i) == ShortsGroup(s, m)
  {
    if m + 30 <= |s| {
      assert (p + s)[|p| + m + 19..|p| + m + 30] == s[m + 19..m + 30];
    }
  }

  /**
    `YouTubeSource._extract_video_id`: the stripped path on a youtu.be host;
    on a youtube.com host the first `v` query value, else a shorts id;
    otherwise the first `v=` or `youtu.be/` followed by an 11-character id
    anywhere in the link.
   */
  function ExtractVideoId(link: string): (r: Option<string>)
    ensures r.Some? && !EndsWith(Parse(link).netloc, "youtu.be") ==> r.value != []
    ensures r.Some? && !EndsWith(Parse(link).netloc, "youtu.be")
            && !(Contains(Parse(link).netloc, "youtube.com") && QueryFirst(Parse(link).query, "v").Some?)
            ==> |r.value| == 11 && AllIdChars(r.value)
  {
    var u := Parse(link);
    if EndsWith(u.netloc, "youtu.be") then Some(Strip(u.path, '/'))
    else if Contains(u.netloc, "youtube.com") && QueryFirst(u.query, "v").Some? then QueryFirst(u.query, "v")
    else if Contains(u.netloc, "youtube.com") && SearchShorts(link).Some? then SearchShorts(link)
    else SearchMarkedId(link)
  }

  /** The canonical watch URL of a video id. */
  function WatchUrl(videoId: string): string {
    "https://www.youtube.com/watch?v=" + videoId
  }

  /** The thumbnail URL of a video id. */
  function ThumbnailUrl(videoId: string): string {
    "https://img.youtube.com/vi/" + videoId + "/hqdefault.jpg"
  }

  /** `YouTubeSource.create_job` */
  function YouTubeCreateJob(requester: Requester, link: string): (r: Option<Job>)
    ensures r.None? <==> ExtractVideoId(link).None? || ExtractVideoId(link).value == []
    ensures r.Some? ==> var v := r.value.mediaId;
                        && Some(v) == ExtractVideoId(link)
                        && r.value.canonicalUrl == WatchUrl(v)
                        && r.value.thumbnail == Some(ThumbnailUrl(v))
                        && r.value.source == YouTube && r.value.requester == requester
  {
    match ExtractVideoId(link)
    case None => None
    case Some(v) =>
      if v == [] then None
      else Some(Job(requester, YouTube, v, WatchUrl(v), Some(ThumbnailUrl(v))))
  }

  // ----------------------------------------------------------------- Reddit

  /** `RedditSource.can_handle`: the lower-cased host ends in reddit.com or v.redd.it. */
  predicate RedditCanHandle(link: string) {
    var host := Lower(Parse(link).netloc);
    EndsWith(host, "reddit.com") || EndsWith(host, "v.redd.it")
  }

  /** The Reddit test compares the host's last characters with the two names regardless of case. */
  lemma RedditHostIgnoresCase(link: string)
    ensures RedditCanHandle(link) <==>
            EndsWithIgnoringCase(Parse(link).netloc, "reddit.com") || EndsWithIgnoringCase(Parse(link).netloc, "v.redd.it")
  {
    LowerEndsWith(Parse(link).netloc, "reddit.com");
    LowerEndsWith(Parse(link).netloc, "v.redd.it");
  }

  /** `\w`: letters, digits and '_' (ASCII). */
  predicate IsWordChar(c: char) {
    IsAsciiLetter(c) || IsDigit(c) || c == '_'
  }

  predicate AllWordChars(s: string) {
    forall k :: 0 <= k < |s| ==> IsWordChar(s[k])
  }

  predicate NoWordChars(s: string) {
    forall k :: 0 <= k < |s| ==> !IsWordChar(s[k])
  }

  /** Drops the leading run of non-word characters. */
  function DropNonWord(s: string): (r: string)
    ensures |r| <= |s| && r == s[|s| - |r|..]
    ensures r == [] || IsWordChar(r[0])
  {
    if s != [] && !IsWordChar(s[0]) then
      var r := DropNonWord(s[1..]);
      assert s[1..][|s| - 1 - |r|..] == s[|s| - |r|..];
      r
    else s
  }

  /** A run of non-word characters followed by a word character or nothing is dropped whole. */
  lemma {:induction false} DropRun(x: string, b: string)
    requires NoWordChars(x) && (b == [] || IsWordChar(b[0]))
    ensures DropNonWord(x + b) == b
    decreases |x|
  {
    if x == [] {
      assert x + b == b;
    } else {
      assert (x + b)[0] == x[0] && (x + b)[1..] == x[1..] + b;
      DropRun(x[1..], b);
    }
  }

  /** `re.sub(r"\W+", "_", s)`: every maximal run of non-word characters becomes one '_'. */
  function ReplaceNonWordRuns(s: string): (r: string)
    ensures AllWordChars(r)
    ensures r == [] <==> s == []
    decreases |s|
  {
    if s == [] then []
    else if IsWordChar(s[0]) then [s[0]] + ReplaceNonWordRuns(s[1..])
    else
      var rest := DropNonWord(s);
      assert |rest| < |s| by { assert rest == [] || rest[0] != s[0] || rest != s; }
      "_" + ReplaceNonWordRuns(rest)
  }

  /** A string of word characters only is left as it is. */
  lemma {:induction false} WordsKept(s: string)
    requires AllWordChars(s)
    ensures ReplaceNonWordRuns(s) == s
    decreases |s|
  {
    if s != [] {
      WordsKept(s[1..]);
      assert s == [s[0]] + s[1..];
    }
  }

  /**
    Word characters are kept in order and a run of non-word characters becomes
    one '_', wherever the run sits: before it only word characters, after it
    the rest of the text, which starts with a word character or is empty.
   */
  lemma {:induction false} ReplaceRun(a: string, x: string, b: string)
    requires AllWordChars(a) && x != [] && NoWordChars(x) && (b == [] || IsWordChar(b[0]))
    ensures ReplaceNonWordRuns(a + x + b) == a + "_" + ReplaceNonWordRuns(b)
    decreases |a|
  {
    if a == [] {
      ConsSplit(a, x, b);
      ConsSplit(a, "_", ReplaceNonWordRuns(b));
      RunFirst(x, b);
    } else {
      ConsSplit(a, x, b);
      ConsSplit(a, "_", ReplaceNonWordRuns(b));
      WordThen(a[0], a[1..] + x + b);
      ReplaceRun(a[1..], x, b);
    }
  }

  lemma ConsSplit(a: string, x: string, b: string)
    ensures a == [] ==> a + x + b == x + b
    ensures a != [] ==> a + x + b == [a[0]] + (a[1..] + x + b)
  {
    if a != [] {
      assert a == [a[0]] + a[1..];
    }
  }

  /** A leading word character is kept. */
  lemma WordThen(c: char, t: string)
    requires IsWordChar(c)
    ensures ReplaceNonWordRuns([c] + t) == [c] + ReplaceNonWordRuns(t)
  {
    assert ([c] + t)[0] == c && ([c] + t)[1..] == t;
  }

  /** A leading run of non-word characters becomes one '_' before the rest. */
  lemma RunFirst(x: string, b: string)
    requires x != [] && NoWordChars(x) && (b == [] || IsWordChar(b[0]))
    ensures ReplaceNonWordRuns(x + b) == "_" + ReplaceNonWordRuns(b)
  {
    assert (x + b)[0] == x[0];
    DropRun(x, b);
  }

  /** A leading run of non-word characters before word characters becomes one '_'. */
  lemma RunThen(x: string, b: string)
    requires x != [] && NoWordChars(x) && AllWordChars(b)
    ensures ReplaceNonWordRuns(x + b) == "_" + b
  {
    RunFirst(x, b);
    WordsKept(b);
  }

  /**
    The name part of `RedditSource._extract_media_id`: on a v.redd.it host the
    first path segment; else the segment after "comments"; else the path
    without surrounding '/' with each run of non-word characters made one '_',
    or "reddit" when that is empty. Never empty, never holds a '/'.
   */
  function RedditName(onVReddit: bool, path: string): (name: string)
    ensures name != [] && '/' !in name
  {
    var parts := NonEmpty(Split(path, '/'));
    var comments := IndexOf(parts, "comments");
    if onVReddit && parts != [] then
      assert parts[0] in parts;
      parts[0]
    else if comments + 1 < |parts| then
      assert parts[comments + 1] in parts;
      parts[comments + 1]
    else SanitisedName(path)
  }

  /** The fallback name: the path without surrounding '/', non-word runs made '_', or "reddit". */
  function SanitisedName(path: string): (name: string)
    ensures name != [] && '/' !in name && AllWordChars(name)
    ensures Strip(path, '/') == [] ==> name == "reddit"
    ensures Strip(path, '/') != [] ==> name == ReplaceNonWordRuns(Strip(path, '/'))
  {
    var sanitised := ReplaceNonWordRuns(Strip(path, '/'));
    if sanitised == [] then
      assert forall k :: 0 <= k < 6 ==> IsWordChar("reddit"[k]);
      "reddit"
    else
      assert forall k :: 0 <= k < |sanitised| ==> sanitised[k] != '/';
      sanitised
  }

  /** `RedditSource._extract_media_id`: "reddit_" followed by one path-free name. */
  function RedditMediaId(link: string): (id: string)
    ensures |id| > 7 && id[..7] == "reddit_" && '/' !in id[7..]
  {
    var u := Parse(link);
    var name := RedditName(EndsWith(Lower(u.netloc), "v.redd.it"), u.path);
    assert ("reddit_" + name)[7..] == name;
    "reddit_" + name
  }

  /** `RedditSource.create_job`: never fails, keeps the link, no thumbnail. */
  function RedditCreateJob(requester: Requester, link: string): (r: Option<Job>)
    ensures r.Some?
    ensures r.value.canonicalUrl == link && r.value.thumbnail.None? && r.value.source == Reddit
  {
    Some(Job(requester, Reddit, RedditMediaId(link), link, None))
  }

  // ------------------------------------------------------------- Strategies

  predicate CanHandle(source: Source, link: string) {
    match source
    case YouTube => YouTubeCanHandle(link)
    case Reddit => RedditCanHandle(link)
  }

  function CreateJob(source: Source, requester: Requester, link: string): (r: Option<Job>)
    ensures r.Some? ==> r.value.source == source && r.value.requester == requester
  {
    match source
    case YouTube => YouTubeCreateJob(requester, link)
    case Reddit => RedditCreateJob(requester, link)
  }

  /** `build_ytdlp_cmd` (the same for both strategies): yt-dlp in the working directory, best audio as mp3. */
  function BuildYtdlpCmd(source: Source, job: Job, audioPath: string, cwd: string): (argv: seq<string>)
    ensures |argv| == 9
    ensures argv[0] == Paths.Join(cwd, "yt-dlp.exe")
    ensures argv[1..6] == ["-f", "bestaudio", "--extract-audio", "--audio-format", "mp3"]
    ensures argv[6] == "-o" && argv[7] == audioPath
    ensures argv[8] == job.canonicalUrl
  {
    [Paths.Join(cwd, "yt-dlp.exe"), "-f", "bestaudio", "--extract-audio", "--audio-format", "mp3",
     "-o", audioPath, job.canonicalUrl]
  }

  // ------------------------------------------------------------- Resolution

  /** Index of the first source `accepts` takes, or `|sources|` when it takes none. */
  function FirstAccepted(sources: seq<Source>, accepts: Source -> bool): (i: nat)
    ensures i <= |sources|
    ensures i < |sources| ==> accepts(sources[i])
    ensures forall k :: 0 <= k < i ==> !accepts(sources[k])
  {
    if sources == [] || accepts(sources[0]) then 0
    else
      var j := FirstAccepted(sources[1..], accepts);
      assert forall k :: 1 <= k <= j ==> sources[k] == sources[1..][k - 1];
      1 + j
  }

  /** Index of the first strategy that accepts `link`, or `|sources|`. */
  function FirstHandler(sources: seq<Source>, link: string): (i: nat)
    ensures i <= |sources|
    ensures i < |sources| ==> CanHandle(sources[i], link)
    ensures forall k :: 0 <= k < i ==> !CanHandle(sources[k], link)
  {
    FirstAccepted(sources, s => CanHandle(s, link))
  }

  /** A strategy at or before the first handler that refuses the link lies before it. */
  lemma BeforeFirstHandler(sources: seq<Source>, link: string, i: nat)
    requires i < |sources| && i <= FirstHandler(sources, link) && !CanHandle(sources[i], link)
    ensures i + 1 <= FirstHandler(sources, link)
  {
  }

  /** The first accepting strategy builds the job; none accepting is Unsupported, no job Malformed. */
  function Resolve(sources: seq<Source>, requester: Requester, link: string): (r: Submission)
    ensures r.Unsupported? <==> forall k :: 0 <= k < |sources| ==> !CanHandle(sources[k], link)
    ensures !r.Unsupported? ==> var i := FirstHandler(sources, link);
                                i < |sources| && (r.Malformed? <==> CreateJob(sources[i], requester, link).None?)
    ensures r.Accepted? ==> r.job.source == sources[FirstHandler(sources, link)] && r.job.requester == requester
    ensures r.Accepted? ==> Some(r.job) == CreateJob(sources[FirstHandler(sources, link)], requester, link)
  {
    var i := FirstHandler(sources, link);
    if i == |sources| then Unsupported
    else
      match CreateJob(sources[i], requester, link)
      case None => Malformed
      case Some(job) => Accepted(job)
  }
}
