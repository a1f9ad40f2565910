/**
 * The playback controller of discord-bot.py as a state machine on values.
 *
 * The state is the music queue, the voice connection (the channel the bot's
 * voice client is in, if any), the audio pipe, the `is_playing_stream` flag,
 * the default volume as an integer percent and `auto_join_enabled`. Each
 * command and event handler of the source is one transition function here;
 * `Bot.Controller` runs the same transitions imperatively.
 *
 * What the external services answer is a parameter: a `World` says which
 * searches and URLs resolve to a video, what each playlist holds and which
 * stream URLs answer the reachability probe.
 */
module Machine {
  import opened Wrappers
  import opened Tracks
  import opened Queue
  import Text

  type ChannelId = nat

  /**
   * What is feeding the voice connection. A `TrackAudio` pipe was started
   * with the `after_playing` callback, which runs `play_next` when the pipe
   * ends; a `StreamAudio` pipe's callback only logs.
   */
  datatype PipeKind = TrackAudio | StreamAudio
  datatype Pipe = Silent | Playing(kind: PipeKind, gain: int)

  /** The configured Icecast URL and the designated voice channel. */
  datatype Config = Config(icecastUrl: string, home: ChannelId)

  datatype World = World(
    videos: map<string, Info>,                   // searches and URLs that resolve
    playlists: map<string, seq<Option<Entry>>>,  // extracted playlist entries
    streams: set<string>)                        // stream URLs that answer the probe

  datatype Ctl = Ctl(
    queue: QState,
    voice: Option<ChannelId>,
    pipe: Pipe,
    streaming: bool,
    volume: int,
    autoJoin: bool)

  const DefaultVolume := 50
  const PlaylistLimit := 50

  /** The state at start-up: empty queue, not connected, volume 0.5, auto-join on. */
  function Initial(): Ctl
  {
    Ctl(QState([], None, false), None, Silent, false, DefaultVolume, true)
  }

  predicate IsPercent(g: int)
  {
    0 <= g <= 100
  }

  predicate SourceOk(t: Track)
  {
    t.source.Some? ==> IsPercent(t.source.value.gain)
  }

  /**
   * The controller's invariant: every volume is a percentage, audio only
   * plays over a connection, and a stream pipe only plays with the stream
   * flag set.
   */
  predicate Valid(s: Ctl)
  {
    && IsPercent(s.volume)
    && (s.pipe.Playing? ==> s.voice.Some? && IsPercent(s.pipe.gain))
    && (s.pipe.Playing? && s.pipe.kind == StreamAudio ==> s.streaming)
    && QueueOk(s.queue)
  }

  /** Every cached source in the queue has a percentage gain. */
  predicate QueueOk(q: QState)
  {
    && (forall i :: 0 <= i < |q.pending| ==> SourceOk(q.pending[i]))
    && (q.current.Some? ==> SourceOk(q.current.value))
  }

  /** A queue step that hands out only tracks with percentage gains. */
  predicate StepOk(step: Step)
  {
    (step.next.Some? ==> SourceOk(step.next.value)) && QueueOk(step.after)
  }

  lemma StepsKeepQueueOk(q: QState)
    ensures QueueOk(q) ==> StepOk(Advance(q)) && StepOk(Skip(q))
  {
    if QueueOk(q) && q.pending != [] {
      assert SourceOk(q.pending[0]);
      assert forall i :: 0 <= i < |q.pending[1..]| ==> q.pending[1..][i] == q.pending[i + 1];
    }
  }

  lemma InitialValid()
    ensures Valid(Initial()) && IsIdle(Initial().queue) && !Initial().streaming
  {
  }

  predicate IsSuffix<T(==)>(a: seq<T>, b: seq<T>)
  {
    |a| <= |b| && a == b[|b| - |a|..]
  }

  /** A pipe started by `play_next` or `play`, whose callback runs `play_next`. */
  predicate PlaysTrack(p: Pipe)
  {
    p.Playing? && p.kind == TrackAudio
  }

  /** `voice_client.play(...)` raises unless connected and silent. */
  predicate CanStart(s: Ctl)
  {
    s.voice.Some? && s.pipe.Silent?
  }

  // ---------------------------------------------------------------------
  // play_next and play_icecast_stream

  /**
   * `play_icecast_stream`: probe the URL; if it answers, start a stream pipe
   * at the default volume and set the stream flag. A failed probe or a
   * failed `play` leaves everything as it was.
   */
  function PlayStream(s: Ctl, w: World, url: string): (r: Ctl)
    ensures url in w.streams && CanStart(s) ==>
      r.pipe == Playing(StreamAudio, s.volume) && r.streaming
    ensures r.queue == s.queue && r.voice == s.voice && r.volume == s.volume && r.autoJoin == s.autoJoin
    ensures !(url in w.streams && CanStart(s)) ==> r == s
    ensures Valid(s) ==> Valid(r)
  {
    if url in w.streams && CanStart(s) then s.(pipe := Playing(StreamAudio, s.volume), streaming := true)
    else s
  }

  /** The end of one attempt of `play_next`: finished, or retry after a resolution failure. */
  datatype Attempt = Done(state: Ctl) | Retry(state: Ctl)

  /**
   * The source `play_next` plays a YouTube track from: the cached one, else
   * a fresh one at the default volume when the URL resolves, else none.
   */
  function Resolve(t: Track, w: World, volume: int): Option<Source>
  {
    if t.source.Some? then t.source
    else if t.url in w.videos then Some(Source(volume))
    else None
  }

  /**
   * One pass of `play_next` after the queue has produced `step`: nothing
   * left (the current slot is reset), a YouTube track (resolve it unless a
   * source is cached, cache the result, play it or retry), or an Icecast
   * track (hand over to the stream).
   */
  function Attend(s: Ctl, w: World, step: Step): (a: Attempt)
    ensures step.next.None? ==> a == Done(s.(queue := step.after.(current := None)))
    ensures step.next.Some? && step.next.value.kind == YouTube ==>
      var t := step.next.value;
      var src := Resolve(t, w, s.volume);
      && a.state.queue == step.after.(current := Some(t.(source := src)))
      && (a.Retry? <==> src.None?)
      && a.state.pipe == (if src.Some? && CanStart(s) then Playing(TrackAudio, src.value.gain) else s.pipe)
      && a.state.streaming == s.streaming
    ensures step.next.Some? && step.next.value.kind == Icecast ==>
      a == Done(PlayStream(s.(queue := step.after), w, step.next.value.url))
    ensures a.Retry? ==> step.next.Some? && a.state.pipe == s.pipe && a.state.streaming == s.streaming
    ensures a.state.voice == s.voice && a.state.volume == s.volume && a.state.autoJoin == s.autoJoin
    ensures a.state.queue.repeat == step.after.repeat && a.state.queue.pending == step.after.pending
    ensures a.Done? && CanStart(s) && (step.next.Some? ==> step.after.current == step.next) ==>
      a.state.pipe.Playing? || a.state.queue.current.None? || a.state.queue.current.value.kind == Icecast
    ensures Valid(s) && StepOk(step) ==> Valid(a.state)
  {
    match step.next
    case None => Done(s.(queue := step.after.(current := None)))
    case Some(t) =>
      if t.kind == YouTube then
        var src := Resolve(t, w, s.volume);
        var s1 := s.(queue := step.after.(current := Some(t.(source := src))));
        if src.None? then Retry(s1)
        else if CanStart(s1) then Done(s1.(pipe := Playing(TrackAudio, src.value.gain)))
        else Done(s1)
      else
        var r := PlayStream(s.(queue := step.after), w, t.url);
        assert step.after.current == step.next ==> r.queue.current == Some(t);
        assert t.kind.Icecast?;
        Done(r)
  }

  /** One pass depends on the queue only through the step it is given. */
  lemma AttendIgnoresQueue(s: Ctl, s': Ctl, w: World, step: Step)
    requires s' == s.(queue := s'.queue)
    ensures Attend(s, w, step) == Attend(s', w, step)
  {
  }

  /** Whether `play_next` takes the head of the pending list rather than replaying the current track. */
  predicate TakesHead(s: Ctl, skipping: bool)
  {
    skipping || !Replays(s.queue)
  }

  /** The state once the head of the pending list has become the current track. */
  function Popped(s: Ctl): Ctl
    requires s.queue.pending != []
  {
    s.(queue := s.queue.(pending := s.queue.pending[1..], current := Some(s.queue.pending[0])))
  }

  /** Both queue steps leave a suffix of the pending list. */
  lemma StepsKeepSuffix(q: QState)
    ensures IsSuffix(Advance(q).after.pending, q.pending)
    ensures IsSuffix(Skip(q).after.pending, q.pending)
  {
  }

  /**
   * `play_next`, with the retry after a resolution failure skipping the
   * failed track (see `PlayNextAsWritten` for the source's own retry).
   * With nothing to replay it takes the head of the pending list: when
   * none is left it resets the current slot; an Icecast head goes to the
   * stream; a YouTube head becomes the current track with its resolved
   * source and plays if the bot is connected and silent, or, when it
   * cannot be resolved, is passed over for the next one. Replaying the
   * current track does the same with that track. From a connected,
   * silent state it always settles, and pending tracks are only ever
   * taken from the head.
   */
  function PlayNext(s: Ctl, w: World, skipping: bool): (r: Ctl)
    ensures IsSuffix(r.queue.pending, s.queue.pending)
    ensures r.voice == s.voice && r.volume == s.volume && r.autoJoin == s.autoJoin
    ensures r.queue.repeat == s.queue.repeat
    ensures CanStart(s) ==>
      r.pipe.Playing? || r.queue.current.None? || r.queue.current.value.kind == Icecast
    ensures Valid(s) ==> Valid(r)
    decreases |s.queue.pending|, if skipping then 0 else 1
  {
    var step := if skipping then Skip(s.queue) else Advance(s.queue);
    TakeStep(s.queue, skipping, step);
    var a := Attend(s, w, step);
    if a.Done? then a.state
    else
      assert CanStart(s) ==> CanStart(a.state);
      var r := PlayNext(a.state, w, true);
      SuffixTransitive(r.queue.pending, a.state.queue.pending, s.queue.pending);
      r
  }

  /** What `play_next` relies on about the step its queue call makes. */
  lemma TakeStep(q: QState, skipping: bool, step: Step)
    requires step == if skipping then Skip(q) else Advance(q)
    ensures IsSuffix(step.after.pending, q.pending)
    ensures QueueOk(q) ==> StepOk(step)
    ensures step.next.Some? ==> step.after.current == step.next
  {
    StepsKeepQueueOk(q);
    StepsKeepSuffix(q);
  }

  /**
   * Which track `play_next` takes when it does not replay: with nothing
   * pending it resets the current slot; otherwise the head becomes the
   * current track and an Icecast head goes to the stream, a YouTube head
   * that resolves plays with its source cached if the bot is connected and
   * silent, and one that does not is passed over for the next one.
   */
  lemma PlayNextTakesHead(s: Ctl, w: World, skipping: bool)
    requires TakesHead(s, skipping)
    ensures s.queue.pending == [] ==>
      PlayNext(s, w, skipping) == s.(queue := s.queue.(current := None))
    ensures s.queue.pending != [] ==>
      var t := s.queue.pending[0];
      var src := Resolve(t, w, s.volume);
      var r := PlayNext(s, w, skipping);
      if t.kind == Icecast then r == PlayStream(Popped(s), w, t.url)
      else if src.None? then r == PlayNext(Popped(s), w, true)
      else r == Popped(s).(queue := Popped(s).queue.(current := Some(t.(source := src))),
                           pipe := if CanStart(s) then Playing(TrackAudio, src.value.gain) else s.pipe)
  {
    var step := if skipping then Skip(s.queue) else Advance(s.queue);
    if s.queue.pending != [] {
      assert step == Step(Some(s.queue.pending[0]), Popped(s).queue);
    }
  }

  /**
   * Replaying under repeat: the current track is played again the same
   * way, and when it cannot be resolved `play_next` skips to the head of
   * the pending list.
   */
  lemma PlayNextReplays(s: Ctl, w: World)
    requires Replays(s.queue)
    ensures
      var t := s.queue.current.value;
      var src := Resolve(t, w, s.volume);
      var r := PlayNext(s, w, false);
      if t.kind == Icecast then r == PlayStream(s, w, t.url)
      else if src.None? then r == PlayNext(s, w, true)
      else r == s.(queue := s.queue.(current := Some(t.(source := src))),
                   pipe := if CanStart(s) then Playing(TrackAudio, src.value.gain) else s.pipe)
  {
    assert Advance(s.queue) == Step(s.queue.current, s.queue);
  }

  lemma SuffixTransitive<T>(a: seq<T>, b: seq<T>, c: seq<T>)
    requires IsSuffix(a, b) && IsSuffix(b, c)
    ensures IsSuffix(a, c)
  {
    assert c[|c| - |b|..][|b| - |a|..] == c[|c| - |a|..];
  }

  /**
   * `play_next` exactly as written: after a resolution failure it calls
   * itself, and `get_next_track` replays the current track when repeat is
   * on. `fuel` bounds the recursion; `None` means it did not settle.
   */
  function PlayNextAsWritten(s: Ctl, w: World, fuel: nat): (r: Option<Ctl>)
    ensures r.Some? ==>
      r.value.voice == s.voice && r.value.volume == s.volume && r.value.autoJoin == s.autoJoin &&
      r.value.queue.repeat == s.queue.repeat && IsSuffix(r.value.queue.pending, s.queue.pending)
    decreases fuel
  {
    if fuel == 0 then None
    else
      match Attend(s, w, Advance(s.queue))
      case Done(r) =>
        StepsKeepSuffix(s.queue);
        Some(r)
      case Retry(s1) =>
        var r := PlayNextAsWritten(s1, w, fuel - 1);
        StepsKeepSuffix(s.queue);
        if r.Some? then SuffixTransitive(r.value.queue.pending, s1.queue.pending, s.queue.pending); r else r
  }

  /** A current track that repeat mode replays and that cannot be resolved. */
  predicate StuckOnRepeat(s: Ctl, w: World)
  {
    && Replays(s.queue)
    && s.queue.current.value.kind == YouTube
    && s.queue.current.value.source.None?
    && s.queue.current.value.url !in w.videos
  }

  /**
   * The source's `play_next` never settles when repeat is on and the
   * current track cannot be resolved: every retry gets the same track back
   * from `get_next_track`, however much recursion is allowed.
   */
  lemma {:induction false} RepeatFailureNeverSettles(s: Ctl, w: World, fuel: nat)
    requires StuckOnRepeat(s, w)
    ensures PlayNextAsWritten(s, w, fuel) == None
    decreases fuel
  {
    if fuel > 0 {
      var t := s.queue.current.value;
      assert t.(source := None) == t;
      assert Attend(s, w, Advance(s.queue)) == Retry(s);
      RepeatFailureNeverSettles(s, w, fuel - 1);
    }
  }

  /**
   * The premise can be met: one unresolvable track made current with repeat
   * on. No command of the bot sets the repeat flag, so no run reaches it.
   */
  lemma StuckOnRepeatIsSatisfiable(s: Ctl, w: World, t: Track)
    requires t.kind == YouTube && t.source.None? && t.url !in w.videos
    ensures StuckOnRepeat(s.(queue := QState(s.queue.pending, Some(t), true)), w)
  {
  }

  /**
   * The corrected `play_next` moves past that track: it takes the next
   * pending one, or empties the current slot when none is left.
   */
  lemma PlayNextSkipsStuckTrack(s: Ctl, w: World)
    requires StuckOnRepeat(s, w)
    ensures PlayNext(s, w, false) == PlayNext(s, w, true)
    ensures s.queue.pending == [] ==> PlayNext(s, w, false).queue.current.None?
    ensures s.queue.pending != [] ==> |PlayNext(s, w, false).queue.pending| < |s.queue.pending|
  {
    var t := s.queue.current.value;
    assert t.(source := None) == t;
    assert Advance(s.queue) == Step(s.queue.current, s.queue);
    assert Attend(s, w, Advance(s.queue)) == Retry(s);
    var sk := Skip(s.queue);
    match Attend(s, w, sk)
    case Done(r) =>
      assert r.queue.pending == sk.after.pending;
    case Retry(s1) =>
      assert PlayNext(s, w, true) == PlayNext(s1, w, true);
  }

  /**
   * With repeat off, the source's `play_next` and the corrected one agree,
   * given one level of recursion per pending track.
   */
  lemma {:induction false} AsWrittenAgreesWithoutRepeat(s: Ctl, w: World, fuel: nat)
    requires !s.queue.repeat && fuel > |s.queue.pending|
    ensures PlayNextAsWritten(s, w, fuel) == Some(PlayNext(s, w, false))
    decreases fuel
  {
    SkippingAgreesWithoutRepeat(s, w);
    var a := Attend(s, w, Advance(s.queue));
    if a.Retry? {
      SkippingAgreesWithoutRepeat(a.state, w);
      AsWrittenAgreesWithoutRepeat(a.state, w, fuel - 1);
    }
  }

  /** With repeat off, taking the next track and skipping to it are the same pass. */
  lemma SkippingAgreesWithoutRepeat(s: Ctl, w: World)
    requires !s.queue.repeat
    ensures PlayNext(s, w, true) == PlayNext(s, w, false)
    ensures var a := Attend(s, w, Advance(s.queue));
      PlayNext(s, w, false) == if a.Done? then a.state else PlayNext(a.state, w, true)
  {
    assert Skip(s.queue) == Advance(s.queue);
  }

  // ---------------------------------------------------------------------
  // Commands

  /** Python's `sub in s` on strings. */
  function Contains(s: string, sub: string): (b: bool)
    ensures b <==> exists i :: 0 <= i <= |s| - |sub| && OccursAt(s, sub, i)
    decreases |s|
  {
    if |s| < |sub| then false
    else
      ContainsShift(s, sub);
      assert OccursAt(s, sub, 0) <==> s[..|sub|] == sub;
      s[..|sub|] == sub || Contains(s[1..], sub)
  }

  /** `sub` occurs in `s` starting at index `i`. */
  predicate OccursAt(s: string, sub: string, i: nat)
    requires i + |sub| <= |s|
  {
    s[i..i + |sub|] == sub
  }

  /** An occurrence in `s[1..]` is an occurrence in `s` one place further on, and back. */
  lemma ContainsShift(s: string, sub: string)
    ensures |s| >= |sub| && |s| > 0 ==>
      ((exists i :: 0 <= i <= |s| - |sub| && OccursAt(s, sub, i)) <==>
       (OccursAt(s, sub, 0) || exists j :: 0 <= j <= |s| - 1 - |sub| && OccursAt(s[1..], sub, j)))
  {
    if |s| >= |sub| && |s| > 0 {
      forall j | 0 <= j <= |s| - 1 - |sub|
        ensures OccursAt(s[1..], sub, j) <==> OccursAt(s, sub, j + 1)
      {
        assert s[1..][j..j + |sub|] == s[j + 1..j + 1 + |sub|];
      }
      if exists i :: 0 <= i <= |s| - |sub| && OccursAt(s, sub, i) {
        var i :| 0 <= i <= |s| - |sub| && OccursAt(s, sub, i);
        if i > 0 {
          assert OccursAt(s[1..], sub, i - 1);
        }
      }
    }
  }

  /** `'playlist' in search or 'list=' in search`. */
  function IsPlaylistQuery(search: string): bool
  {
    Contains(search, "playlist") || Contains(search, "list=")
  }

  /** The tracks of the present entries, in order; missing entries are skipped. */
  function PresentTracks(es: seq<Option<Entry>>): (ts: seq<Track>)
    ensures |ts| <= |es|
    ensures (forall i :: 0 <= i < |es| ==> es[i].Some?) ==> |ts| == |es|
    ensures forall i :: 0 <= i < |ts| ==> ts[i].kind == YouTube && ts[i].source.None?
    decreases |es|
  {
    if es == [] then []
    else
      var last := es[|es| - 1];
      PresentTracks(es[..|es| - 1]) + (if last.Some? then [EntryTrack(last.value)] else [])
  }

  /** One more entry adds its track at the end, when the entry is present. */
  lemma PresentTracksSnoc(es: seq<Option<Entry>>, i: nat)
    requires i < |es|
    ensures PresentTracks(es[..i + 1]) == PresentTracks(es[..i]) + (if es[i].Some? then [EntryTrack(es[i].value)] else [])
  {
    assert es[..i + 1][..i] == es[..i];
  }

  /**
   * `handle_playlist`: append the present entries among the first 50 at the
   * tail, in order, and start playing if the pipe is silent. A search that
   * yields no playlist changes nothing.
   */
  function HandlePlaylist(s: Ctl, w: World, search: string): (r: Ctl)
    ensures search !in w.playlists ==> r == s
    ensures search in w.playlists && s.pipe.Playing? ==>
      r == s.(queue := s.queue.(pending := s.queue.pending + PlaylistTracks(w, search)))
    ensures search in w.playlists && !s.pipe.Playing? ==>
      r == PlayNext(s.(queue := s.queue.(pending := s.queue.pending + PlaylistTracks(w, search))), w, false)
    ensures r.voice == s.voice && r.volume == s.volume && r.autoJoin == s.autoJoin
    ensures r.queue.repeat == s.queue.repeat
    ensures Valid(s) ==> Valid(r)
  {
    if search !in w.playlists then s
    else
      var ts := PlaylistTracks(w, search);
      var s1 := s.(queue := s.queue.(pending := s.queue.pending + ts));
      AppendKeepsQueueOk(s.queue, ts);
      if s1.pipe.Playing? then s1 else PlayNext(s1, w, false)
  }

  /** The tracks `handle_playlist` adds for a playlist: those of the present entries among the first 50. */
  function PlaylistTracks(w: World, search: string): (ts: seq<Track>)
    requires search in w.playlists
    ensures |ts| <= PlaylistLimit
    ensures forall i :: 0 <= i < |ts| ==> ts[i].kind == YouTube && ts[i].source.None?
    ensures forall i :: 0 <= i < |ts| ==> SourceOk(ts[i])
  {
    var es := w.playlists[search];
    PresentTracks(es[..Text.Min(PlaylistLimit, |es|)])
  }

  /** Appending tracks whose cached sources have percentage gains keeps the queue's invariant. */
  lemma AppendKeepsQueueOk(q: QState, ts: seq<Track>)
    ensures QueueOk(q) && (forall i :: 0 <= i < |ts| ==> SourceOk(ts[i])) ==>
      QueueOk(q.(pending := q.pending + ts))
  {
    var p := q.pending + ts;
    assert forall i :: 0 <= i < |p| ==> p[i] == if i < |q.pending| then q.pending[i] else ts[i - |q.pending|];
  }

  /** Joining the user's channel: connect, move, or nothing when already there. */
  predicate Joins(s: Ctl, userChannel: Option<ChannelId>, joinOk: bool)
  {
    userChannel.Some? && (s.voice == userChannel || joinOk)
  }

  /**
   * The `play` command. The user must be in a voice channel, which the bot
   * joins. A playing stream is stopped. A playlist search goes to
   * `handle_playlist`; a single video that resolves is queued at the tail
   * while audio plays, and otherwise becomes the current track and starts
   * at the default volume.
   */
  function Play(s: Ctl, w: World, userChannel: Option<ChannelId>, joinOk: bool, search: string): (r: Ctl)
    ensures !Joins(s, userChannel, joinOk) ==> r == s
    ensures Joins(s, userChannel, joinOk) ==> r.voice == userChannel
    ensures r.volume == s.volume && r.autoJoin == s.autoJoin && r.queue.repeat == s.queue.repeat
    ensures Joins(s, userChannel, joinOk) && IsPlaylistQuery(search) ==>
      r == HandlePlaylist(LeaveStream(s.(voice := userChannel)), w, search)
    ensures Joins(s, userChannel, joinOk) && !IsPlaylistQuery(search) ==>
      r.streaming == (s.streaming && !s.pipe.Playing?)
    ensures Joins(s, userChannel, joinOk) && !IsPlaylistQuery(search) && search in w.videos ==>
      var t := ResolvedTrack(search, w.videos[search], s.volume);
      if s.pipe.Playing? && !s.streaming
      then r.queue == s.queue.(pending := s.queue.pending + [t]) && r.pipe == s.pipe
      else r.queue == s.queue.(current := Some(t)) && r.pipe == Playing(TrackAudio, s.volume)
    ensures Joins(s, userChannel, joinOk) && !IsPlaylistQuery(search) && search !in w.videos ==>
      r == LeaveStream(s.(voice := userChannel)) && r.queue == s.queue
    ensures Valid(s) ==> Valid(r)
  {
    if !Joins(s, userChannel, joinOk) then s
    else
      var s2 := LeaveStream(s.(voice := userChannel));
      if IsPlaylistQuery(search) then HandlePlaylist(s2, w, search)
      else if search !in w.videos then s2
      else
        var t := ResolvedTrack(search, w.videos[search], s2.volume);
        AppendKeepsQueueOk(s2.queue, [t]);
        if s2.pipe.Playing? then s2.(queue := s2.queue.(pending := s2.queue.pending + [t]))
        else s2.(queue := s2.queue.(current := Some(t)), pipe := Playing(TrackAudio, s2.volume))
  }

  /** `play` stops a playing stream and clears the stream flag before anything else. */
  function LeaveStream(s: Ctl): (r: Ctl)
    ensures !(r.streaming && r.pipe.Playing?)
    ensures s.streaming && s.pipe.Playing? ==> r == s.(pipe := Silent, streaming := false)
    ensures !(s.streaming && s.pipe.Playing?) ==> r == s
  {
    if s.streaming && s.pipe.Playing? then s.(pipe := Silent, streaming := false) else s
  }

  /** `url or config["icecast_url"]`: an empty or missing URL means the configured one. */
  function StreamUrl(cfg: Config, url: Option<string>): (u: string)
    ensures url.Some? && url.value != "" ==> u == url.value
    ensures url.None? || url.value == "" ==> u == cfg.icecastUrl
  {
    if url.Some? && url.value != "" then url.value else cfg.icecastUrl
  }

  /**
   * The `stream` command. After joining the user's channel it stops any
   * audio, clears the queue unless a stream was already on, and then probes
   * and plays the stream. The stop and the clear come before the probe, so
   * an unreachable stream leaves the bot silent.
   */
  function Stream(s: Ctl, w: World, cfg: Config, userChannel: Option<ChannelId>, joinOk: bool,
                  url: Option<string>): (r: Ctl)
    ensures !Joins(s, userChannel, joinOk) ==> r == s
    ensures Joins(s, userChannel, joinOk) ==> r.voice == userChannel && r.volume == s.volume
    ensures r.autoJoin == s.autoJoin && r.queue.repeat == s.queue.repeat
    ensures Joins(s, userChannel, joinOk) && !s.streaming ==> IsIdle(r.queue)
    ensures Joins(s, userChannel, joinOk) && s.streaming ==> r.queue == s.queue
    ensures Joins(s, userChannel, joinOk) && StreamUrl(cfg, url) in w.streams ==>
      r.pipe == Playing(StreamAudio, s.volume) && r.streaming
    ensures Joins(s, userChannel, joinOk) && StreamUrl(cfg, url) !in w.streams ==>
      r.pipe.Silent? && r.streaming == s.streaming
    ensures Valid(s) ==> Valid(r)
  {
    if !Joins(s, userChannel, joinOk) then s
    else
      var s1 := s.(voice := userChannel);
      var s2 := if s1.pipe.Playing? then s1.(pipe := Silent) else s1;
      var s3 := if !s2.streaming then s2.(queue := s2.queue.(pending := [], current := None)) else s2;
      PlayStream(s3, w, StreamUrl(cfg, url))
  }

  /** Whether the `volume` command accepts a value: connected and 0 to 100. */
  predicate VolumeAccepted(s: Ctl, vol: int)
  {
    s.voice.Some? && 0 <= vol <= 100
  }

  /**
   * The `volume` command: an accepted value becomes the default volume and
   * the gain of the playing audio; anything else changes nothing.
   */
  function SetVolume(s: Ctl, vol: int): (r: Ctl)
    ensures VolumeAccepted(s, vol) ==>
      r == s.(volume := vol, pipe := if s.pipe.Playing? then s.pipe.(gain := vol) else s.pipe)
    ensures VolumeAccepted(s, vol) ==> r.pipe.Playing? ==> r.pipe.gain == r.volume
    ensures !VolumeAccepted(s, vol) ==> r == s
    ensures Valid(s) ==> Valid(r)
  {
    if !VolumeAccepted(s, vol) then s
    else s.(volume := vol, pipe := if s.pipe.Playing? then s.pipe.(gain := vol) else s.pipe)
  }

  /**
   * A pipe ends on its own: a track pipe's callback runs `play_next`, a
   * stream pipe's only logs.
   */
  function Finished(s: Ctl, w: World): (r: Ctl)
    ensures !s.pipe.Playing? ==> r == s
    ensures s.pipe.Playing? && s.pipe.kind == StreamAudio ==> r == s.(pipe := Silent)
    ensures s.pipe.Playing? && s.pipe.kind == TrackAudio ==> r == PlayNext(s.(pipe := Silent), w, false)
    ensures Valid(s) ==> Valid(r)
  {
    if !s.pipe.Playing? then s
    else if s.pipe.kind == StreamAudio then s.(pipe := Silent)
    else PlayNext(s.(pipe := Silent), w, false)
  }

  /** The `skip` command: stop the playing pipe, which fires its callback. */
  function SkipCmd(s: Ctl, w: World): (r: Ctl)
    ensures !(s.voice.Some? && s.pipe.Playing?) ==> r == s
    ensures s.voice.Some? && s.pipe.Playing? ==> r == Finished(s, w)
    ensures Valid(s) ==> Valid(r)
  {
    if s.voice.Some? && s.pipe.Playing? then Finished(s, w) else s
  }

  /** The `stop` command: silence, disconnect, empty queue, stream flag off. */
  function Stop(s: Ctl): (r: Ctl)
    ensures s.voice.None? ==> r == s
    ensures s.voice.Some? ==>
      IsIdle(r.queue) && r.voice.None? && r.pipe.Silent? && !r.streaming &&
      r.volume == s.volume && r.autoJoin == s.autoJoin && r.queue.repeat == s.queue.repeat
    ensures Valid(s) ==> Valid(r)
  {
    if s.voice.None? then s
    else s.(queue := s.queue.(pending := [], current := None), voice := None, pipe := Silent, streaming := false)
  }

  /** The `clear` command: only the queue is reset; audio goes on. */
  function ClearQueue(s: Ctl): (r: Ctl)
    ensures IsIdle(r.queue) && r.queue.repeat == s.queue.repeat
    ensures r.(queue := s.queue) == s
    ensures Valid(s) ==> Valid(r)
  {
    s.(queue := s.queue.(pending := [], current := None))
  }

  /** The `autorejoin` command. */
  function ToggleAutoJoin(s: Ctl): (r: Ctl)
    ensures r.autoJoin != s.autoJoin && r.(autoJoin := s.autoJoin) == s
    ensures Valid(s) ==> Valid(r)
  {
    s.(autoJoin := !s.autoJoin)
  }

  // ---------------------------------------------------------------------
  // Presence

  /**
   * `handle_user_joined`, given the number of non-bot members now in the
   * designated channel. With at least one and the bot not there, the bot
   * connects and starts the configured stream (no probe) at the default
   * volume. `connectOk` tells whether `channel.connect()` succeeds; it
   * raises while the bot is in another channel of the server, and when it
   * raises nothing changes.
   */
  function UserJoined(s: Ctl, cfg: Config, humans: nat, connectOk: bool): (r: Ctl)
    ensures humans == 0 || s.voice.Some? || !connectOk ==> r == s
    ensures humans > 0 && s.voice.None? && connectOk ==>
      r == s.(voice := Some(cfg.home), pipe := Playing(StreamAudio, s.volume), streaming := true)
    ensures Valid(s) ==> Valid(r)
  {
    if humans == 0 then s
    else if s.voice == Some(cfg.home) then s
    else if s.voice.Some? || !connectOk then s
    else s.(voice := Some(cfg.home), pipe := Playing(StreamAudio, s.volume), streaming := true)
  }

  /**
   * `handle_user_left`: when no non-bot member remains in the designated
   * channel and the bot is in it, disconnect and clear the stream flag.
   * Disconnecting stops the pipe; a track pipe's callback then runs
   * `play_next` without a voice connection, which advances the queue (or
   * resets the current slot) but plays nothing. A stream pipe's callback
   * only logs, and the queue is kept.
   */
  function UserLeft(s: Ctl, w: World, cfg: Config, humans: nat): (r: Ctl)
    ensures humans > 0 || s.voice != Some(cfg.home) ==> r == s
    ensures humans == 0 && s.voice == Some(cfg.home) && !PlaysTrack(s.pipe) ==>
      r == s.(voice := None, pipe := Silent, streaming := false)
    ensures humans == 0 && s.voice == Some(cfg.home) && PlaysTrack(s.pipe) ==>
      r == PlayNext(s.(voice := None, pipe := Silent, streaming := false), w, false)
    ensures humans == 0 && s.voice == Some(cfg.home) ==> r.voice.None? && r.pipe.Silent? && !r.streaming
    ensures Valid(s) ==> Valid(r)
  {
    if humans > 0 then s
    else if s.voice == Some(cfg.home) then
      var d := s.(voice := None, pipe := Silent, streaming := false);
      if PlaysTrack(s.pipe) then
        PlayNextDisconnected(d, w, false);
        PlayNext(d, w, false)
      else d
    else s
  }

  /**
   * Without a voice connection `play_next` plays nothing: `voice_client.play`
   * and the stream's `play` both fail, so the pipe and the stream flag stay
   * as they were, whatever happens to the queue.
   */
  lemma {:induction false} PlayNextDisconnected(s: Ctl, w: World, skipping: bool)
    requires s.voice.None?
    ensures PlayNext(s, w, skipping).pipe == s.pipe
    ensures PlayNext(s, w, skipping).streaming == s.streaming
    decreases |s.queue.pending|, if skipping then 0 else 1
  {
    var step := if skipping then Skip(s.queue) else Advance(s.queue);
    var a := Attend(s, w, step);
    assert PlayNext(s, w, skipping) == if a.Done? then a.state else PlayNext(a.state, w, true);
    assert !CanStart(s);
    if a.Retry? {
      assert |a.state.queue.pending| <= |s.queue.pending|;
      PlayNextDisconnected(a.state, w, true);
    }
  }

  /**
   * `on_voice_state_update`: gated by the auto-join flag; a member now in
   * the designated channel counts as a join, one who was in it as a leave.
   */
  function VoiceStateUpdate(s: Ctl, w: World, cfg: Config, wasHome: bool, isHome: bool, humans: nat,
                            connectOk: bool): (r: Ctl)
    ensures !s.autoJoin ==> r == s
    ensures s.autoJoin && isHome ==> r == UserJoined(s, cfg, humans, connectOk)
    ensures s.autoJoin && !isHome && wasHome ==> r == UserLeft(s, w, cfg, humans)
    ensures !isHome && !wasHome ==> r == s
    ensures Valid(s) ==> Valid(r)
  {
    if !s.autoJoin then s
    else if isHome then UserJoined(s, cfg, humans, connectOk)
    else if wasHome then UserLeft(s, w, cfg, humans)
    else s
  }

  /** `check_and_join_voice_channel` at start-up: the join rule, gated by the flag. */
  function Ready(s: Ctl, cfg: Config, humans: nat, connectOk: bool): (r: Ctl)
    ensures !s.autoJoin ==> r == s
    ensures s.autoJoin ==> r == UserJoined(s, cfg, humans, connectOk)
    ensures Valid(s) ==> Valid(r)
  {
    if !s.autoJoin then s else UserJoined(s, cfg, humans, connectOk)
  }

  /** The reply of the `queue` command in a state. */
  function QueueReplyOf(s: Ctl): string
  {
    Text.QueueReply(s.voice.Some?, s.streaming, s.queue.current, s.queue.pending)
  }
}
