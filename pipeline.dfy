/**
  The value-level pieces of the transcription worker in cogs/Winston.py:
  queued tickets and their removal, where a job's files go, the ffmpeg
  command, the elapsed-time text and how the transcript is delivered.
 */
module Pipeline {
  import opened Wrappers
  import opened Strings
  import Paths
  import opened MediaSources

  // ---------------------------------------------------------------- tickets

  /**
    A submitted job. `id` stands for the identity of the Python object: the
    cog's lists compare jobs by identity, so two submissions of the same link
    are different entries.
   */
  datatype Ticket = Ticket(id: nat, job: Job)

  /** Tickets in strictly increasing submission order. */
  predicate Increasing(s: seq<Ticket>) {
    forall i, j :: 0 <= i < j < |s| ==> s[i].id < s[j].id
  }

  /** Every ticket was issued before `next`. */
  predicate IssuedBefore(s: seq<Ticket>, next: nat) {
    forall i :: 0 <= i < |s| ==> s[i].id < next
  }

  /** `list.remove(x)`: drop the first entry equal to `x`. */
  function Remove(s: seq<Ticket>, x: Ticket): (r: seq<Ticket>)
    requires x in s
    ensures |r| == |s| - 1
    ensures var i := IndexOf(s, x); r == s[..i] + s[i + 1..]
  {
    var i := IndexOf(s, x);
    s[..i] + s[i + 1..]
  }

  /** Removing an entry keeps the others in order. */
  lemma RemoveKeepsIncreasing(s: seq<Ticket>, x: Ticket, next: nat)
    requires x in s && Increasing(s) && IssuedBefore(s, next)
    ensures Increasing(Remove(s, x)) && IssuedBefore(Remove(s, x), next)
  {
    var i := IndexOf(s, x);
    var r := Remove(s, x);
    forall a, b | 0 <= a < b < |r| ensures r[a].id < r[b].id {
      var a' := if a < i then a else a + 1;
      var b' := if b < i then b else b + 1;
      assert r[a] == s[a'] && r[b] == s[b'];
    }
    forall a | 0 <= a < |r| ensures r[a].id < next {
      assert r[a] == s[if a < i then a else a + 1];
    }
  }

  /** Appending then removing a ticket that was not there gives the list back. */
  lemma RemoveAppended(s: seq<Ticket>, x: Ticket)
    requires x !in s
    ensures Remove(s + [x], x) == s
  {
    var t := s + [x];
    assert t[|s|] == x;
    assert forall k :: 0 <= k < |s| ==> t[k] == s[k] && t[k] != x;
    assert IndexOf(t, x) == |s|;
    assert t[..|s|] == s;
  }

  /** The head of a list that is increasing after `active` is not in `active`. */
  lemma HeadNotActive(active: seq<Ticket>, queue: seq<Ticket>)
    requires queue != [] && Increasing(active + queue)
    ensures queue[0] !in active
  {
    var all := active + queue;
    forall k | 0 <= k < |active| ensures active[k] != queue[0] {
      assert all[k] == active[k] && all[|active|] == queue[0];
    }
  }

  /** No job is both active and still queued. */
  lemma {:induction false} ActiveNotQueued(active: seq<Ticket>, queue: seq<Ticket>)
    requires Increasing(active + queue)
    ensures forall t :: t in active ==> t !in queue
  {
    var all := active + queue;
    forall t | t in active ensures t !in queue {
      var i := IndexOf(active, t);
      forall j | 0 <= j < |queue| ensures queue[j] != t {
        assert all[i] == t && all[|active| + j] == queue[j];
      }
    }
  }

  // ---------------------------------------------------------------- files

  const Downloads: string := "downloads"

  /** `os.path.join("downloads", f"{media_id}.mp3")` */
  function AudioPath(mediaId: string): string {
    Paths.Join(Downloads, mediaId + ".mp3")
  }

  /** `os.path.join("downloads", f"{media_id}_16k.wav")` */
  function WavPath(mediaId: string): string {
    Paths.Join(Downloads, mediaId + "_16k.wav")
  }

  /** `f"./transcripts/{media_id}.txt"` */
  function TranscriptPath(mediaId: string): string {
    "./transcripts/" + mediaId + ".txt"
  }

  /** The ffmpeg call: overwrite, input, mono, 16 kHz, WAV, output. */
  function FfmpegCmd(audioPath: string, wavPath: string): (argv: seq<string>)
    ensures |argv| == 11 && argv[0] == "ffmpeg" && argv[3] == audioPath && argv[10] == wavPath
    ensures argv[1..3] == ["-y", "-i"]
    ensures argv[4..10] == ["-ac", "1", "-ar", "16000", "-f", "wav"]
  {
    ["ffmpeg", "-y", "-i", audioPath, "-ac", "1", "-ar", "16000", "-f", "wav", wavPath]
  }

  lemma DownloadsDir()
    ensures Downloads != [] && Downloads[0] != Paths.Sep && Downloads[|Downloads| - 1] != Paths.Sep
  {
  }

  /** A file name that does not start with a separator lands inside "downloads". */
  lemma InDownloads(name: string)
    requires name != [] && name[0] != Paths.Sep
    ensures Paths.Join(Downloads, name) == Downloads + [Paths.Sep] + name
  {
    DownloadsDir();
    assert !StartsWith(name, [Paths.Sep]);
    assert !EndsWith(Downloads, [Paths.Sep]);
  }

  /**
    The downloaded audio and the converted WAV of one job are different
    files, and jobs with different media ids (not starting with a
    separator) never share an audio file.
   */
  lemma ArtifactPaths(a: string, b: string)
    requires (a == [] || a[0] != Paths.Sep) && (b == [] || b[0] != Paths.Sep)
    ensures AudioPath(a) != WavPath(a)
    ensures AudioPath(a) == AudioPath(b) ==> a == b
  {
    var audioA, wavA, audioB := a + ".mp3", a + "_16k.wav", b + ".mp3";
    assert audioA[0] != Paths.Sep && wavA[0] != Paths.Sep && audioB[0] != Paths.Sep by {
      if a != [] { assert audioA[0] == a[0] && wavA[0] == a[0]; }
      if b != [] { assert audioB[0] == b[0]; }
    }
    InDownloads(audioA);
    InDownloads(wavA);
    InDownloads(audioB);
    var n := |Downloads| + 1;
    assert |audioA| != |wavA|;
    if AudioPath(a) == AudioPath(b) {
      assert (Downloads + [Paths.Sep] + audioA)[n..] == audioA;
      assert (Downloads + [Paths.Sep] + audioB)[n..] == audioB;
      assert a == audioA[..|a|] && b == audioB[..|b|];
    }
  }

  /**
    The two commands of one job chain up: ffmpeg reads the file yt-dlp
    writes, and writes a different file.
   */
  lemma ConversionReadsDownload(source: Source, job: Job, cwd: string)
    requires job.mediaId == [] || job.mediaId[0] != Paths.Sep
    ensures var audio, wav := AudioPath(job.mediaId), WavPath(job.mediaId);
            var download, convert := BuildYtdlpCmd(source, job, audio, cwd), FfmpegCmd(audio, wav);
            convert[3] == download[7] && convert[10] != download[7]
  {
    ArtifactPaths(job.mediaId, job.mediaId);
  }

  /** The downloaded and converted files of a job without separators in its id are named after the id. */
  lemma ArtifactNames(mediaId: string)
    requires Paths.Sep !in mediaId
    ensures Paths.Basename(AudioPath(mediaId)) == mediaId + ".mp3"
    ensures Paths.Basename(WavPath(mediaId)) == mediaId + "_16k.wav"
  {
    SuffixedName(mediaId, ".mp3");
    SuffixedName(mediaId, "_16k.wav");
    Paths.BasenameOfJoin(Downloads, mediaId + ".mp3");
    Paths.BasenameOfJoin(Downloads, mediaId + "_16k.wav");
  }

  lemma SuffixedName(name: string, suffix: string)
    requires Paths.Sep !in name && Paths.Sep !in suffix && suffix != []
    ensures name + suffix != [] && Paths.Sep !in name + suffix
  {
    var t := name + suffix;
    forall k | 0 <= k < |t| ensures t[k] != Paths.Sep {
      if k < |name| { assert t[k] == name[k]; } else { assert t[k] == suffix[k - |name|]; }
    }
  }

  // ------------------------------------------------------------ elapsed time

  /** `divmod(elapsed, 60)` rendered as "{m}m {s}s", or "{s}s" under a minute. */
  function ElapsedText(elapsed: nat): (s: string)
    ensures |s| >= 2 && s[|s| - 1] == 's'
  {
    var mins, secs := elapsed / 60, elapsed % 60;
    if mins > 0 then WithSeconds(NatToString(mins) + "m " + NatToString(secs)) else WithSeconds(NatToString(secs))
  }

  function WithSeconds(body: string): (s: string)
    ensures |s| == |body| + 1 && s[..|body|] == body && s[|body|] == 's'
  {
    body + "s"
  }

  /**
    Reads an elapsed-time text back into seconds. Only the texts of
    `divmod` are accepted: numerals without leading zeros, a seconds field
    below 60 and, in the two-field form, a positive number of minutes.
   */
  function ReadElapsed(s: string): Option<nat> {
    if s == [] || s[|s| - 1] != 's' then None else ReadBody(s[..|s| - 1])
  }

  /** Reads "{m}m {s}" or "{s}", the text before the final 's'. */
  function ReadBody(body: string): Option<nat> {
    var space := IndexOf(body, ' ');
    if space == |body| then
      if Numeral(body) && DecimalValue(body) < 60 then Some(DecimalValue(body)) else None
    else if space >= 2 && body[space - 1] == 'm' then ReadMinutesBody(body[..space - 1], body[space + 1..])
    else None
  }

  function ReadMinutesBody(m: string, d: string): Option<nat> {
    if Numeral(m) && Numeral(d) && DecimalValue(m) > 0 && DecimalValue(d) < 60
    then Some(60 * DecimalValue(m) + DecimalValue(d))
    else None
  }

  lemma ReadTail(body: string)
    ensures ReadElapsed(WithSeconds(body)) == ReadBody(body)
  {
  }

  lemma DigitsHaveNoSpace(d: string)
    requires AllDigits(d)
    ensures ' ' !in d && 'm' !in d
  {
    forall k | 0 <= k < |d| ensures d[k] != ' ' && d[k] != 'm' {
      assert IsDigit(d[k]);
    }
  }

  lemma ReadSeconds(d: string)
    requires Numeral(d) && DecimalValue(d) < 60
    ensures ReadElapsed(WithSeconds(d)) == Some(DecimalValue(d))
  {
    DigitsHaveNoSpace(d);
    ReadTail(d);
  }

  lemma ReadMinutes(m: string, d: string)
    requires m != [] && AllDigits(m) && AllDigits(d)
    ensures ReadElapsed(WithSeconds(m + "m " + d)) == ReadMinutesBody(m, d)
  {
    var body := m + "m " + d;
    calc {
      ReadElapsed(WithSeconds(body));
      { ReadTail(body); }
      ReadBody(body);
      { MinutesBody(m, d); }
      ReadMinutesBody(m, d);
    }
  }

  lemma MinutesBody(m: string, d: string)
    requires m != [] && AllDigits(m)
    ensures ReadBody(m + "m " + d) == ReadMinutesBody(m, d)
  {
    DigitsHaveNoSpace(m);
    var body := m + "m " + d;
    assert body[|m|] == 'm' && body[|m| + 1] == ' ';
    forall k | 0 <= k < |m| ensures body[k] != ' ' {
      assert body[k] == m[k];
    }
    assert IndexOf(body, ' ') == |m| + 1;
    assert body[..|m|] == m && body[|m| + 2..] == d;
  }

  /** The elapsed text reads back as the number of seconds it was made from. */
  lemma ElapsedRoundTrip(elapsed: nat)
    ensures ReadElapsed(ElapsedText(elapsed)) == Some(elapsed)
  {
    var mins, secs := elapsed / 60, elapsed % 60;
    assert elapsed == 60 * mins + secs && secs < 60;
    if mins > 0 {
      assert ElapsedText(elapsed) == WithSeconds(NatToString(mins) + "m " + NatToString(secs));
      MinutesRoundTrip(mins, secs, elapsed);
    } else {
      assert ElapsedText(elapsed) == WithSeconds(NatToString(secs));
      SecondsRoundTrip(secs);
    }
  }

  lemma MinutesRoundTrip(mins: nat, secs: nat, total: nat)
    requires mins > 0 && secs < 60 && total == 60 * mins + secs
    ensures ReadElapsed(WithSeconds(NatToString(mins) + "m " + NatToString(secs))) == Some(total)
  {
    var m, d := NatToString(mins), NatToString(secs);
    DecimalRoundTrip(secs);
    DecimalRoundTrip(mins);
    ReadMinutes(m, d);
    MinutesValue(m, d, mins, secs);
  }

  lemma MinutesValue(m: string, d: string, mins: nat, secs: nat)
    requires Numeral(m) && Numeral(d) && DecimalValue(m) == mins && DecimalValue(d) == secs
    requires mins > 0 && secs < 60
    ensures ReadMinutesBody(m, d) == Some(60 * mins + secs)
  {
  }

  lemma SecondsRoundTrip(secs: nat)
    requires secs < 60
    ensures ReadElapsed(WithSeconds(NatToString(secs))) == Some(secs)
  {
    DecimalRoundTrip(secs);
    ReadSeconds(NatToString(secs));
  }

  /**
    The reader accepts exactly one text per number of seconds: the text
    `ElapsedText` writes. With `ElapsedRoundTrip` this pins the format: the
    minutes are `elapsed / 60`, the seconds `elapsed % 60`, each written
    without leading zeros.
   */
  lemma ElapsedTextIsOnlyReading(s: string, elapsed: nat)
    requires ReadElapsed(s) == Some(elapsed)
    ensures s == ElapsedText(elapsed)
  {
    var body := s[..|s| - 1];
    assert s == WithSeconds(body);
    var space := IndexOf(body, ' ');
    if space == |body| {
      MinutesParts(elapsed, 0, elapsed);
      assert ElapsedText(elapsed) == WithSeconds(NatToString(elapsed));
      NumeralUnique(body, elapsed);
    } else {
      var m, d := body[..space - 1], body[space + 1..];
      assert body == m + "m " + d;
      var mins, secs := DecimalValue(m), DecimalValue(d);
      MinutesParts(elapsed, mins, secs);
      assert ElapsedText(elapsed) == WithSeconds(NatToString(mins) + "m " + NatToString(secs));
      NumeralUnique(m, mins);
      NumeralUnique(d, secs);
    }
  }

  lemma MinutesParts(elapsed: nat, mins: nat, secs: nat)
    requires secs < 60 && elapsed == 60 * mins + secs
    ensures elapsed / 60 == mins && elapsed % 60 == secs
  {
  }

  /** Minutes are shown exactly from one minute on. */
  lemma ElapsedShowsMinutes(elapsed: nat)
    ensures ' ' in ElapsedText(elapsed) <==> elapsed >= 60
  {
    var secs := elapsed % 60;
    DigitsHaveNoSpace(NatToString(secs));
    if elapsed >= 60 {
      var m := NatToString(elapsed / 60);
      var body := m + "m " + NatToString(secs);
      assert body[|m| + 1] == ' ';
      assert WithSeconds(body)[|m| + 1] == ' ';
    } else {
      var body := NatToString(secs);
      assert ' ' !in WithSeconds(body) by {
        forall k | 0 <= k < |body| + 1 ensures WithSeconds(body)[k] != ' ' {
          if k < |body| { assert WithSeconds(body)[k] == body[k]; }
        }
      }
    }
  }

  // ---------------------------------------------------------------- delivery

  /** Longest transcript sent inside the result message. */
  const InlineLimit: nat := 1000

  /** How a finished transcript reaches the requester. */
  datatype Delivery = Inline(text: string) | AsFile(path: string, filename: string)

  function DeliveryOf(transcript: string, mediaId: string): (d: Delivery)
    ensures d.Inline? <==> |transcript| <= InlineLimit
    ensures d.Inline? ==> d.text == transcript
    ensures d.AsFile? ==> d.path == TranscriptPath(mediaId) && d.filename == mediaId + ".txt"
  {
    if |transcript| <= InlineLimit then Inline(transcript)
    else AsFile(TranscriptPath(mediaId), mediaId + ".txt")
  }

  /** The attached file is the one the transcript was saved to, under its own file name. */
  lemma AttachmentIsSavedFile(transcript: string, mediaId: string)
    requires |transcript| > InlineLimit && '/' !in mediaId
    ensures var d := DeliveryOf(transcript, mediaId);
            d.AsFile? && Paths.Basename(d.path) == d.filename
  {
    var name := mediaId + ".txt";
    assert TranscriptPath(mediaId) == "./transcripts" + [Paths.Sep] + name;
    assert Paths.Sep !in name by {
      forall k | 0 <= k < |name| ensures name[k] != Paths.Sep {
        if k < |mediaId| { assert name[k] == mediaId[k]; }
      }
    }
    var dir := "./transcripts";
    assert dir[|dir| - 1] == 's';
    assert !EndsWith(dir, [Paths.Sep]);
    assert name != [] && !StartsWith(name, [Paths.Sep]);
    Paths.BasenameOfJoin(dir, name);
    assert Paths.Join(dir, name) == dir + [Paths.Sep] + name;
  }
}
