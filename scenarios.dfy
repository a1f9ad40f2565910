/**
 * Runs of the controller through several commands and events, stated for
 * all tracks, searches and volumes that fit each scenario.
 */
module Scenarios {
  import opened Wrappers
  import opened Tracks
  import opened Queue
  import opened Machine

  /** Connected, silent, nothing queued, no stream, repeat off. */
  predicate Quiet(s: Ctl)
  {
    Valid(s) && s.voice.Some? && s.pipe.Silent? && IsIdle(s.queue) && !s.queue.repeat && !s.streaming
  }

  /**
   * Three `play` commands and then the first track ending and a `skip`: the
   * first search plays at once, the other two wait in order, the end of the
   * first starts the second and the skip starts the third.
   */
  lemma PlayThreeThenAdvance(s: Ctl, w: World, q1: string, q2: string, q3: string)
    requires Quiet(s)
    requires q1 in w.videos && q2 in w.videos && q3 in w.videos
    requires !IsPlaylistQuery(q1) && !IsPlaylistQuery(q2) && !IsPlaylistQuery(q3)
    ensures
      var t1 := ResolvedTrack(q1, w.videos[q1], s.volume);
      var t2 := ResolvedTrack(q2, w.videos[q2], s.volume);
      var t3 := ResolvedTrack(q3, w.videos[q3], s.volume);
      var a := Play(Play(Play(s, w, s.voice, true, q1), w, s.voice, true, q2), w, s.voice, true, q3);
      var b := Finished(a, w);
      var c := SkipCmd(b, w);
      && a.queue.current == Some(t1) && a.queue.pending == [t2, t3] && a.pipe == Playing(TrackAudio, s.volume)
      && b.queue.current == Some(t2) && b.queue.pending == [t3] && b.pipe == Playing(TrackAudio, s.volume)
      && c.queue.current == Some(t3) && c.queue.pending == [] && c.pipe == Playing(TrackAudio, s.volume)
  {
    var t1 := ResolvedTrack(q1, w.videos[q1], s.volume);
    var t2 := ResolvedTrack(q2, w.videos[q2], s.volume);
    var t3 := ResolvedTrack(q3, w.videos[q3], s.volume);
    var a1 := Play(s, w, s.voice, true, q1);
    var a2 := Play(a1, w, s.voice, true, q2);
    var a := Play(a2, w, s.voice, true, q3);
    assert a.queue.pending == [t2, t3];
    var b := Finished(a, w);
    var sa := a.(pipe := Silent);
    assert Advance(sa.queue).next == Some(t2);
    assert Attend(sa, w, Advance(sa.queue)).Done?;
    assert b.queue.current == Some(t2);
    var c := SkipCmd(b, w);
    var sb := b.(pipe := Silent);
    assert Advance(sb.queue).next == Some(t3);
    assert Attend(sb, w, Advance(sb.queue)).Done?;
  }

  /**
   * A pending track that cannot be resolved is reported and passed over:
   * the next one plays without any further command.
   */
  lemma FailedTrackIsPassedOver(s: Ctl, w: World, t1: Track, t2: Track)
    requires Quiet(s)
    requires t1.kind == YouTube && t1.source.None? && t1.url !in w.videos
    requires t2.kind == YouTube && t2.source.Some? && SourceOk(t2)
    ensures
      var r := PlayNext(s.(queue := s.queue.(pending := [t1, t2])), w, false);
      r.queue.current == Some(t2) && r.queue.pending == [] && r.pipe == Playing(TrackAudio, t2.source.value.gain)
  {
    var s0 := s.(queue := s.queue.(pending := [t1, t2]));
    var a := Attend(s0, w, Advance(s0.queue));
    assert a.Retry?;
    assert a.state.queue.pending == [t2];
    assert Attend(a.state, w, Skip(a.state.queue)).Done?;
  }

  /**
   * A volume set while a track plays changes that track's gain at once, and
   * a track resolved after it starts at the new volume without any further
   * volume command.
   */
  lemma VolumeCarriesToLaterTracks(s: Ctl, w: World, search: string, vol: int)
    requires Valid(s) && s.voice.Some? && s.pipe.Playing? && s.pipe.kind == TrackAudio
    requires !s.streaming && !s.queue.repeat && s.queue.pending == []
    requires 0 <= vol <= 100 && search in w.videos && !IsPlaylistQuery(search)
    ensures
      var a := SetVolume(s, vol);
      var b := Play(a, w, s.voice, true, search);
      var c := Finished(b, w);
      && a.pipe == Playing(TrackAudio, vol)
      && c.queue.current == Some(ResolvedTrack(search, w.videos[search], vol))
      && c.pipe == Playing(TrackAudio, vol)
  {
    var a := SetVolume(s, vol);
    var b := Play(a, w, s.voice, true, search);
    var t := ResolvedTrack(search, w.videos[search], vol);
    assert b.queue.pending == [t];
    var sb := b.(pipe := Silent);
    assert Advance(sb.queue).next == Some(t);
    assert Attend(sb, w, Advance(sb.queue)).Done?;
  }

  /**
   * Switching from the queue to a stream empties the queue, so a later
   * `get_next_track` finds nothing, whether or not the probe succeeds.
   */
  lemma StreamReplacesQueue(s: Ctl, w: World, cfg: Config, url: Option<string>)
    requires Valid(s) && s.voice.Some? && !s.streaming
    ensures
      var r := Stream(s, w, cfg, s.voice, true, url);
      IsIdle(r.queue) && Advance(r.queue).next.None?
  {
  }

  /**
   * When the last listener leaves while the stream plays, the bot
   * disconnects and the stream flag goes off; a later `play` whose
   * connection fails then changes nothing.
   */
  lemma LeaveThenPlayNeedsReconnect(s: Ctl, w: World, cfg: Config, user: ChannelId, search: string)
    requires Valid(s) && s.autoJoin && s.voice == Some(cfg.home) && s.streaming
    ensures
      var a := VoiceStateUpdate(s, w, cfg, true, false, 0, true);
      && a.voice.None? && a.pipe.Silent? && !a.streaming
      && Play(a, w, Some(user), false, search) == a
  {
  }

  /**
   * When the last listener leaves while a track plays, the disconnect fires
   * the track's callback: the next pending track is taken into the current
   * slot, but nothing plays, and with nothing pending the slot is emptied.
   */
  lemma LeaveWhileTrackPlays(s: Ctl, w: World, cfg: Config, t: Track)
    requires Valid(s) && s.autoJoin && s.voice == Some(cfg.home) && PlaysTrack(s.pipe) && !s.queue.repeat
    requires t.kind == YouTube && t.source.Some?
    ensures
      var r := VoiceStateUpdate(s.(queue := s.queue.(pending := [t])), w, cfg, true, false, 0, true);
      r.queue.pending == [] && r.queue.current == Some(t) && r.voice.None? && r.pipe.Silent? && !r.streaming
    ensures
      var r := VoiceStateUpdate(s.(queue := s.queue.(pending := [])), w, cfg, true, false, 0, true);
      r.queue.pending == [] && r.queue.current.None? && r.voice.None? && r.pipe.Silent?
  {
    var d := s.(queue := s.queue.(pending := [t]), voice := None, pipe := Silent, streaming := false);
    PlayNextTakesHead(d, w, false);
    var e := s.(queue := s.queue.(pending := []), voice := None, pipe := Silent, streaming := false);
    PlayNextTakesHead(e, w, false);
  }

  /**
   * The completion callback that `stop` fires is harmless: `play_next` on
   * the stopped state finds no track and changes nothing.
   */
  lemma StopCallbackIsHarmless(s: Ctl, w: World)
    requires s.voice.Some?
    ensures PlayNext(Stop(s), w, false) == Stop(s)
  {
    var r := Stop(s);
    assert Attend(r, w, Advance(r.queue)) == Done(r);
  }
}
