/**
 * The texts the bot derives from its state (discord-bot.py): decimal
 * numbers, the Icecast URL split into directory and mount, the
 * `mins:ss` duration, the presence status line, the stream's now-playing
 * line and the queue listing.
 */
module Text {
  import opened Wrappers
  import opened Tracks

  // ---------------------------------------------------------------------
  // Decimal numbers, as Python's `str(int)` writes them.

  predicate IsDigit(c: char)
  {
    '0' <= c <= '9'
  }

  predicate AllDigits(s: string)
  {
    forall i :: 0 <= i < |s| ==> IsDigit(s[i])
  }

  function DigitChar(d: int): (c: char)
    requires 0 <= d < 10
    ensures IsDigit(c)
  {
    ('0' as int + d) as char
  }

  function DigitValue(c: char): (d: nat)
    requires IsDigit(c)
    ensures d < 10 && DigitChar(d) == c
  {
    c as int - '0' as int
  }

  /** The decimal digits of `n`, without leading zeros. */
  function NatToString(n: nat): (s: string)
    ensures |s| >= 1 && AllDigits(s)
    ensures s[0] == '0' <==> n == 0
    decreases n
  {
    if n < 10 then [DigitChar(n)] else NatToString(n / 10) + [DigitChar(n % 10)]
  }

  /** The value of a string of decimal digits. */
  function ParseNat(s: string): nat
    requires AllDigits(s)
    decreases |s|
  {
    if s == [] then 0 else ParseNat(s[..|s| - 1]) * 10 + DigitValue(s[|s| - 1])
  }

  lemma {:induction false} ParseNatToString(n: nat)
    ensures ParseNat(NatToString(n)) == n
    decreases n
  {
    var s := NatToString(n);
    if n >= 10 {
      ParseNatToString(n / 10);
      assert s[..|s| - 1] == NatToString(n / 10);
    }
  }

  /** `str(i)`: a minus sign in front of the digits of a negative number. */
  function IntToString(i: int): (s: string)
    ensures |s| >= 1
  {
    if i < 0 then "-" + NatToString(-i) else NatToString(i)
  }

  predicate IsIntText(s: string)
  {
    if |s| > 0 && s[0] == '-' then AllDigits(s[1..]) else AllDigits(s)
  }

  function ParseInt(s: string): int
    requires IsIntText(s)
  {
    if |s| > 0 && s[0] == '-' then 0 - ParseNat(s[1..]) else ParseNat(s)
  }

  lemma ParseIntToString(i: int)
    ensures IsIntText(IntToString(i)) && ParseInt(IntToString(i)) == i
  {
    if i < 0 {
      var s := IntToString(i);
      assert s[1..] == NatToString(-i);
      ParseNatToString(-i);
    } else {
      ParseNatToString(i);
    }
  }

  // ---------------------------------------------------------------------
  // Durations: `mins, secs = divmod(duration, 60)`, printed as `{mins}:{secs:02d}`.

  /** `{secs:02d}` for a number of seconds below 60. */
  function Pad2(x: int): (s: string)
    requires 0 <= x < 60
    ensures |s| == 2 && AllDigits(s) && s[0] <= '5'
  {
    [DigitChar(x / 10), DigitChar(x % 10)]
  }

  /**
   * The `Duration` text. For a divisor of 60, Dafny's `/` and `%` agree with
   * Python's `divmod` (floor division, remainder never negative), also for a
   * negative duration.
   */
  function FormatDuration(d: int): (r: string)
    ensures |r| >= 4 && r[|r| - 3] == ':'
    ensures IsDigit(r[|r| - 2]) && IsDigit(r[|r| - 1]) && r[|r| - 2] <= '5'
  {
    IntToString(d / 60) + ":" + Pad2(d % 60)
  }

  predicate IsDurationText(s: string)
  {
    |s| >= 4 && s[|s| - 3] == ':' && IsIntText(s[..|s| - 3]) && AllDigits(s[|s| - 2..])
  }

  /** Reads a `mins:ss` text back as a number of seconds. */
  function ParseDuration(s: string): int
    requires IsDurationText(s)
  {
    ParseInt(s[..|s| - 3]) * 60 + ParseNat(s[|s| - 2..])
  }

  /** The duration text loses nothing: minutes times 60 plus seconds is the duration. */
  lemma DurationRoundTrip(d: int)
    ensures IsDurationText(FormatDuration(d)) && ParseDuration(FormatDuration(d)) == d
  {
    var r := FormatDuration(d);
    assert r[..|r| - 3] == IntToString(d / 60);
    assert r[|r| - 2..] == Pad2(d % 60);
    ParseIntToString(d / 60);
    Pad2RoundTrip(d % 60);
  }

  /** Two zero-padded digits read back as the number of seconds they show. */
  lemma Pad2RoundTrip(x: int)
    requires 0 <= x < 60
    ensures ParseNat(Pad2(x)) == x
  {
    var p := Pad2(x);
    assert p[..1] == [DigitChar(x / 10)] && p[..1][..0] == [];
    assert ParseNat(p[..1]) == x / 10;
  }

  /**
   * The now-playing command's duration line. `if track.get('duration')`
   * treats a zero duration like a missing one.
   */
  function DurationLine(d: Option<int>): (r: Option<string>)
    ensures r.Some? <==> d.Some? && d.value != 0
    ensures r.Some? ==> r.value == "**Duration:** " + FormatDuration(d.value) + "\n"
  {
    if d.Some? && d.value != 0 then Some("**Duration:** " + FormatDuration(d.value) + "\n") else None
  }

  // ---------------------------------------------------------------------
  // URLs: `str.split('/')`, `'/'.join(...)` and the Icecast base URL.

  /** `s.split('/')`: the pieces between slashes, always at least one. */
  function Split(s: string): (parts: seq<string>)
    ensures |parts| >= 1
    ensures forall i :: 0 <= i < |parts| ==> '/' !in parts[i]
    ensures |parts| == 1 <==> '/' !in s
    decreases |s|
  {
    if s == [] then [""]
    else if s[0] == '/' then [""] + Split(s[1..])
    else
      var rest := Split(s[1..]);
      [[s[0]] + rest[0]] + rest[1..]
  }

  /** `'/'.join(parts)`. */
  function Join(parts: seq<string>): string
    decreases |parts|
  {
    if parts == [] then ""
    else if |parts| == 1 then parts[0]
    else parts[0] + "/" + Join(parts[1..])
  }

  /** Splitting at slashes and joining with slashes gives the string back. */
  lemma {:induction false} JoinSplit(s: string)
    ensures Join(Split(s)) == s
    decreases |s|
  {
    if s != [] {
      JoinSplit(s[1..]);
      var rest := Split(s[1..]);
      if s[0] == '/' {
        assert Split(s) == [""] + rest;
        assert Split(s)[1..] == rest;
      } else {
        var parts := Split(s);
        assert parts == [[s[0]] + rest[0]] + rest[1..];
        if |rest| > 1 {
          assert parts[1..] == rest[1..];
        }
      }
    }
  }

  lemma {:induction false} JoinSnoc(ps: seq<string>, p: string)
    requires |ps| >= 1
    ensures Join(ps + [p]) == Join(ps) + "/" + p
    decreases |ps|
  {
    if |ps| > 1 {
      JoinSnoc(ps[1..], p);
      assert (ps + [p])[1..] == ps[1..] + [p];
    } else {
      assert (ps + [p])[1..] == [p];
    }
  }

  /** `'/'.join(url.split('/')[:-1])`: the URL without its last path segment. */
  function BaseUrl(url: string): string
  {
    var parts := Split(url);
    Join(parts[..|parts| - 1])
  }

  /** `url.split('/')[-1]`: the last path segment (the Icecast mount name). */
  function LastSegment(url: string): string
  {
    var parts := Split(url);
    parts[|parts| - 1]
  }

  /** The status document's URL, next to the stream in its directory. */
  function StatusUrl(url: string): string
  {
    BaseUrl(url) + "/status-json.xsl"
  }

  /**
   * The base URL and the mount name are the stream URL cut at its last
   * slash; a URL without a slash has an empty base. So the status document
   * is fetched from the stream's own directory.
   */
  lemma BaseUrlAndMount(url: string)
    ensures '/' !in LastSegment(url)
    ensures '/' in url ==> BaseUrl(url) + "/" + LastSegment(url) == url
    ensures '/' in url ==> StatusUrl(url) == url[..|url| - |LastSegment(url)|] + "status-json.xsl"
    ensures '/' !in url ==> BaseUrl(url) == "" && LastSegment(url) == url
  {
    var parts := Split(url);
    JoinSplit(url);
    if '/' in url {
      var n := |parts|;
      assert parts == parts[..n - 1] + [parts[n - 1]];
      JoinSnoc(parts[..n - 1], parts[n - 1]);
      var b := BaseUrl(url);
      assert url == b + "/" + LastSegment(url);
      assert url[..|url| - |LastSegment(url)|] == b + "/";
    } else {
      assert parts == [parts[0]];
    }
  }

  // ---------------------------------------------------------------------
  // The presence status and the stream's now-playing text.

  const Note := "🎵 "
  const ReadyText := "Ready for music!"

  /**
   * The status line: the stream's now-playing text while streaming, else the
   * current track's title, else the ready text.
   */
  function StatusText(streaming: bool, current: Option<Track>, nowPlaying: string): (r: string)
    ensures streaming ==> r == Note + nowPlaying
    ensures !streaming && current.Some? ==> r == Note + current.value.title
    ensures r == ReadyText <==> !streaming && current.None?
  {
    if streaming then
      assert (Note + nowPlaying)[0] != ReadyText[0];
      Note + nowPlaying
    else if current.Some? then
      assert (Note + current.value.title)[0] != ReadyText[0];
      Note + current.value.title
    else ReadyText
  }

  /**
   * The `icestats` object of the Icecast status document. A field is `None`
   * when its key is missing.
   */
  datatype IceStats = IceStats(
    artist: Option<string>,
    title: Option<string>,
    serverName: Option<string>,
    host: Option<string>)

  /** Python truthiness of an optional string: present and non-empty. */
  predicate Truthy(s: Option<string>)
  {
    s.Some? && s.value != ""
  }

  /**
   * The now-playing text of the stream; `status` is `None` when the status
   * document could not be fetched or has no `icestats`.
   */
  function NowPlaying(status: Option<IceStats>, streamUrl: string): (r: string)
    ensures status.None? ==> r == "Unknown"
    ensures status.Some? && Truthy(status.value.artist) && Truthy(status.value.title) ==>
      r == status.value.artist.value + " : " + status.value.title.value
    ensures (status.Some? && !(Truthy(status.value.artist) && Truthy(status.value.title))
             && status.value.serverName.Some?) ==> r == status.value.serverName.value
    ensures (status.Some? && !(Truthy(status.value.artist) && Truthy(status.value.title))
             && status.value.serverName.None?) ==>
      r == status.value.host.GetOr("unknown host") + " : " + LastSegment(streamUrl)
  {
    match status
    case None => "Unknown"
    case Some(ice) =>
      if Truthy(ice.artist) && Truthy(ice.title) then ice.artist.value + " : " + ice.title.value
      else if ice.serverName.Some? then ice.serverName.value
      else ice.host.GetOr("unknown host") + " : " + LastSegment(streamUrl)
  }

  // ---------------------------------------------------------------------
  // The queue listing of the `queue` command.

  const MaxListed := 10

  function HeaderLine(n: nat): string
  {
    "**Up Next (" + NatToString(n) + " tracks):**\n"
  }

  /** The numbered line of one pending track. */
  function EntryLine(k: nat, t: Track): string
  {
    "`" + NatToString(k) + ".` " + t.title + "\n"
  }

  function MoreLine(n: nat): string
  {
    "... and " + NatToString(n) + " more tracks\n"
  }

  predicate IsMoreLine(line: string)
  {
    |line| > 0 && line[0] == '.'
  }

  function Min(a: int, b: int): int
  {
    if a < b then a else b
  }

  /** The numbered lines of `ts`, the first one numbered `from`. */
  function EntryLines(ts: seq<Track>, from: nat): (lines: seq<string>)
    ensures |lines| == |ts|
    ensures forall i :: 0 <= i < |ts| ==> lines[i] == EntryLine(from + i, ts[i])
  {
    seq(|ts|, i requires 0 <= i < |ts| => EntryLine(from + i, ts[i]))
  }

  lemma EntryLinesSnoc(ts: seq<Track>, i: nat, from: nat)
    requires i < |ts|
    ensures EntryLines(ts[..i + 1], from) == EntryLines(ts[..i], from) + [EntryLine(from + i, ts[i])]
  {
    assert ts[..i + 1][i] == ts[i];
  }

  /**
   * The "Up Next" part of the listing, as lines: nothing for no pending
   * track; otherwise a header, the first ten tracks numbered from 1, and a
   * "... and N more" line exactly when more than ten are pending.
   */
  function UpNext(ts: seq<Track>): (lines: seq<string>)
    ensures ts == [] ==> lines == []
    ensures ts != [] ==>
      |lines| == 1 + Min(MaxListed, |ts|) + (if |ts| > MaxListed then 1 else 0) &&
      lines[0] == HeaderLine(|ts|)
    ensures forall k :: 1 <= k <= Min(MaxListed, |ts|) ==> lines[k] == EntryLine(k, ts[k - 1])
    ensures |ts| > MaxListed ==> lines[|lines| - 1] == MoreLine(|ts| - MaxListed)
    ensures |ts| <= MaxListed ==> forall i :: 0 <= i < |lines| ==> !IsMoreLine(lines[i])
  {
    if ts == [] then []
    else
      [HeaderLine(|ts|)] + EntryLines(ts[..Min(MaxListed, |ts|)], 1)
      + (if |ts| > MaxListed then [MoreLine(|ts| - MaxListed)] else [])
  }

  /** The lines run together, as the source's `message +=` builds them. */
  function Concat(lines: seq<string>): string
    decreases |lines|
  {
    if lines == [] then "" else Concat(lines[..|lines| - 1]) + lines[|lines| - 1]
  }

  lemma ConcatSnoc(lines: seq<string>, line: string)
    ensures Concat(lines + [line]) == Concat(lines) + line
  {
    assert (lines + [line])[..|lines|] == lines;
  }

  /**
   * Builds the "Up Next" text line by line, as the source's loop over
   * `enumerate(queue_list[:10], 1)` does.
   */
  method BuildUpNext(ts: seq<Track>) returns (msg: string)
    ensures msg == Concat(UpNext(ts))
  {
    msg := "";
    if |ts| == 0 {
      return;
    }
    var shown := Min(MaxListed, |ts|);
    ghost var lines := [HeaderLine(|ts|)];
    msg := msg + HeaderLine(|ts|);
    assert msg == Concat(lines) by { ConcatSnoc([], HeaderLine(|ts|)); }
    var i := 0;
    while i < shown
      invariant 0 <= i <= shown
      invariant lines == [HeaderLine(|ts|)] + EntryLines(ts[..i], 1)
      invariant msg == Concat(lines)
    {
      var line := EntryLine(i + 1, ts[i]);
      ConcatSnoc(lines, line);
      EntryLinesSnoc(ts, i, 1);
      lines := lines + [line];
      msg := msg + line;
      i := i + 1;
    }
    if |ts| > MaxListed {
      var line := MoreLine(|ts| - MaxListed);
      ConcatSnoc(lines, line);
      lines := lines + [line];
      msg := msg + line;
    }
    assert lines == UpNext(ts);
  }


  const NotConnectedReply := "❌ Not connected to any voice channel!"
  const StreamingReply := "🔴 **Currently Streaming**\nIcecast stream is playing. No queue while streaming."
  const EmptyQueueReply := "📭 **Queue is empty!**\nUse `!play <song>` to add music."

  /** The listing's title and, when there is one, the current track. */
  function QueueHead(current: Option<Track>): string
  {
    "🎵 **Music Queue**\n\n" + (if current.Some? then "**Now Playing:**\n🎵 " + current.value.title + "\n\n" else "")
  }

  /**
   * The whole reply of the `queue` command: not connected, streaming, empty,
   * or the current track followed by the "Up Next" part.
   */
  function QueueReply(connected: bool, streaming: bool, current: Option<Track>, pending: seq<Track>): (r: string)
    ensures !connected ==> r == NotConnectedReply
    ensures connected && streaming ==> r == StreamingReply
    ensures connected && !streaming && current.None? && pending == [] ==> r == EmptyQueueReply
    ensures connected && !streaming && (current.Some? || pending != []) ==>
      r == QueueHead(current) + Concat(UpNext(pending))
  {
    if !connected then NotConnectedReply
    else if streaming then StreamingReply
    else if current.None? && pending == [] then EmptyQueueReply
    else QueueHead(current) + Concat(UpNext(pending))
  }
}
