/**
 * The controller of discord-bot.py as the source runs it: the module-level
 * globals `music_queue`, `is_playing_stream`, `default_volume` and
 * `auto_join_enabled`, plus the bot's voice client reduced to the channel
 * it is in and the pipe it is feeding, become the fields of one object.
 * Every command and event handler is a method that updates those fields in
 * place and is proved to make exactly the transition `Machine` defines.
 */
module Bot {
  import opened Wrappers
  import opened Tracks
  import opened Queue
  import opened Machine
  import Text

  class Controller {
    const cfg: Config
    const q: MusicQueue
    var voice: Option<ChannelId>
    var pipe: Pipe
    var streaming: bool
    var volume: int
    var autoJoin: bool

    /** The controller's state as a value. */
    ghost function State(): Ctl
      reads this, q
    {
      Ctl(q.Value(), voice, pipe, streaming, volume, autoJoin)
    }

    constructor (cfg: Config)
      ensures State() == Initial() && this.cfg == cfg && fresh(q)
    {
      this.cfg := cfg;
      q := new MusicQueue();
      voice := None;
      pipe := Silent;
      streaming := false;
      volume := DefaultVolume;
      autoJoin := true;
    }

    /** `play_icecast_stream`. */
    method PlayStream(w: World, url: string)
      modifies this
      ensures State() == Machine.PlayStream(old(State()), w, url)
    {
      if url !in w.streams {
        return;   // the probe failed or timed out
      }
      if voice.Some? && pipe.Silent? {
        pipe := Playing(StreamAudio, volume);
        streaming := true;
      }
    }

    /**
     * `play_next`: take the next track, resolve it unless a source is cached
     * and play it; on a resolution failure, go on with the next pending
     * track; when nothing is left, reset the current slot.
     */
    method PlayNext(w: World, skipping: bool)
      modifies this, q
      ensures State() == Machine.PlayNext(old(State()), w, skipping)
      decreases |q.pending|, if skipping then 0 else 1
    {
      ghost var s0 := State();
      var next: Option<Track>;
      if skipping {
        next := q.SkipTrack();
      } else {
        next := q.GetNextTrack();
      }
      ghost var step := Step(next, q.Value());
      AttendIgnoresQueue(s0, State(), w, step);
      ghost var a := Attend(s0, w, step);
      assert Machine.PlayNext(s0, w, skipping) == if a.Done? then a.state else Machine.PlayNext(a.state, w, true);
      var retry := AttendTo(w, next);
      if retry {
        PlayNext(w, true);   // "Failed to play ..., skipping..."
      }
    }

    /**
     * One pass of `play_next` once the queue has produced `next`; `retry`
     * tells that the track could not be resolved.
     */
    method AttendTo(w: World, next: Option<Track>) returns (retry: bool)
      modifies this, q
      ensures State() == Attend(old(State()), w, Step(next, old(q.Value()))).state
      ensures retry <==> Attend(old(State()), w, Step(next, old(q.Value()))).Retry?
    {
      if next.None? {
        q.current := None;   // "Queue finished!"
        return false;
      }
      var t := next.value;
      if t.kind == YouTube {
        var src := t.source;
        if src.None? && t.url in w.videos {
          src := Some(Source(volume));
        }
        q.current := Some(t.(source := src));
        if src.None? {
          return true;
        }
        if voice.Some? && pipe.Silent? {
          pipe := Playing(TrackAudio, src.value.gain);
        }
      } else {
        PlayStream(w, t.url);
      }
      return false;
    }

    /**
     * `handle_playlist`: add the present entries among the first 50, then
     * start playing if the pipe is silent.
     */
    method HandlePlaylist(w: World, search: string)
      modifies this, q
      ensures State() == Machine.HandlePlaylist(old(State()), w, search)
    {
      if search !in w.playlists {
        return;
      }
      var es := w.playlists[search];
      AddEntries(es[..Text.Min(PlaylistLimit, |es|)]);
      if !pipe.Playing? {
        PlayNext(w, false);
      }
    }

    /** The loop of `handle_playlist`: `add_track` for each present entry, in order. */
    method AddEntries(es: seq<Option<Entry>>)
      modifies q
      ensures q.pending == old(q.pending) + PresentTracks(es)
      ensures q.current == old(q.current) && q.repeatMode == old(q.repeatMode)
    {
      var i := 0;
      while i < |es|
        invariant 0 <= i <= |es|
        invariant q.pending == old(q.pending) + PresentTracks(es[..i])
        invariant q.current == old(q.current) && q.repeatMode == old(q.repeatMode)
      {
        PresentTracksSnoc(es, i);
        if es[i].Some? {
          q.AddTrack(EntryTrack(es[i].value));
        }
        i := i + 1;
      }
      assert es[..|es|] == es;
    }

    /** The `play` command. */
    method Play(w: World, userChannel: Option<ChannelId>, joinOk: bool, search: string)
      modifies this, q
      ensures State() == Machine.Play(old(State()), w, userChannel, joinOk, search)
    {
      if userChannel.None? {
        return;   // "You need to be in a voice channel ..."
      }
      if voice != userChannel {
        if !joinOk {
          return;   // connecting or moving raised
        }
        voice := userChannel;
      }
      if streaming && pipe.Playing? {
        pipe := Silent;
        streaming := false;   // "Switched from stream to music queue"
      }
      assert Machine.Play(old(State()), w, userChannel, joinOk, search) == Machine.Play(State(), w, voice, true, search);
      PlaySearch(w, search);
    }

    /** The rest of `play`, once connected with no stream playing. */
    method PlaySearch(w: World, search: string)
      requires voice.Some? && !(streaming && pipe.Playing?)
      modifies this, q
      ensures State() == Machine.Play(old(State()), w, old(voice), true, search)
    {
      if IsPlaylistQuery(search) {
        HandlePlaylist(w, search);
        return;
      }
      if search !in w.videos {
        return;   // "Could not find or play that video!"
      }
      var t := ResolvedTrack(search, w.videos[search], volume);
      if pipe.Playing? {
        q.AddTrack(t);
      } else {
        q.current := Some(t);
        pipe := Playing(TrackAudio, volume);
      }
    }

    /** The `stream` command. */
    method Stream(w: World, userChannel: Option<ChannelId>, joinOk: bool, url: Option<string>)
      modifies this, q
      ensures State() == Machine.Stream(old(State()), w, cfg, userChannel, joinOk, url)
    {
      if userChannel.None? {
        return;
      }
      if voice != userChannel {
        if !joinOk {
          return;   // "Failed to connect ..." or "Failed to move ..."
        }
        voice := userChannel;
      }
      var streamUrl := if url.Some? && url.value != "" then url.value else cfg.icecastUrl;
      if pipe.Playing? {
        pipe := Silent;
      }
      if !streaming {
        q.Clear();
      }
      PlayStream(w, streamUrl);
    }

    /** The `volume` command; `accepted` tells whether the value was taken. */
    method SetVolume(vol: int) returns (accepted: bool)
      modifies this
      ensures accepted == VolumeAccepted(old(State()), vol)
      ensures State() == Machine.SetVolume(old(State()), vol)
    {
      if voice.None? {
        return false;   // "Not connected to a voice channel!"
      }
      if !(0 <= vol <= 100) {
        return false;   // "Volume must be between 0 and 100!"
      }
      volume := vol;
      if pipe.Playing? {
        pipe := pipe.(gain := vol);
      }
      return true;
    }

    /** A pipe ending on its own, which runs its `after` callback. */
    method Finished(w: World)
      modifies this, q
      ensures State() == Machine.Finished(old(State()), w)
    {
      if !pipe.Playing? {
        return;
      }
      var kind := pipe.kind;
      pipe := Silent;
      if kind == TrackAudio {
        PlayNext(w, false);
      }
    }

    /** The `skip` command: stopping the pipe fires the same callback. */
    method Skip(w: World)
      modifies this, q
      ensures State() == SkipCmd(old(State()), w)
    {
      if voice.Some? && pipe.Playing? {
        Finished(w);
      }
    }

    /** The `stop` command. */
    method Stop()
      modifies this, q
      ensures State() == Machine.Stop(old(State()))
    {
      if voice.None? {
        return;   // "Not connected to a voice channel!"
      }
      pipe := Silent;
      voice := None;
      q.Clear();
      streaming := false;
    }

    /** The `clear` command. */
    method ClearQueue()
      modifies q
      ensures State() == Machine.ClearQueue(old(State()))
    {
      q.Clear();
    }

    /** The `autorejoin` command. */
    method ToggleAutoJoin()
      modifies this
      ensures State() == Machine.ToggleAutoJoin(old(State()))
    {
      autoJoin := !autoJoin;
    }

    /**
     * `handle_user_joined`; `humans` is the number of non-bot members in the
     * channel and `connectOk` tells whether `channel.connect()` succeeds.
     */
    method HandleUserJoined(humans: nat, connectOk: bool)
      modifies this
      ensures State() == UserJoined(old(State()), cfg, humans, connectOk)
    {
      if humans == 0 {
        return;
      }
      if voice == Some(cfg.home) {
        return;   // already there
      }
      if voice.Some? || !connectOk {
        return;   // `channel.connect()` raises, as it does while connected elsewhere
      }
      voice := Some(cfg.home);
      pipe := Playing(StreamAudio, volume);
      streaming := true;
    }

    /**
     * `handle_user_left`. The source loops over the bot's voice clients; the
     * bot has at most one, so the loop is one test.
     */
    method HandleUserLeft(w: World, humans: nat)
      modifies this, q
      ensures State() == UserLeft(old(State()), w, cfg, humans)
    {
      if humans > 0 {
        return;
      }
      if voice == Some(cfg.home) {
        var wasTrack := PlaysTrack(pipe);
        voice := None;
        pipe := Silent;
        streaming := false;
        if wasTrack {
          PlayNext(w, false);   // the stopped track pipe's `after_playing`
        }
      }
    }

    /** `on_voice_state_update`, for a member that was or now is in the designated channel. */
    method OnVoiceStateUpdate(w: World, wasHome: bool, isHome: bool, humans: nat, connectOk: bool)
      modifies this, q
      ensures State() == VoiceStateUpdate(old(State()), w, cfg, wasHome, isHome, humans, connectOk)
    {
      if !autoJoin {
        return;
      }
      if isHome {
        HandleUserJoined(humans, connectOk);
      } else if wasHome {
        HandleUserLeft(w, humans);
      }
    }

    /** `check_and_join_voice_channel`, run once at start-up. */
    method OnReady(humans: nat, connectOk: bool)
      modifies this
      ensures State() == Ready(old(State()), cfg, humans, connectOk)
    {
      if !autoJoin {
        return;
      }
      HandleUserJoined(humans, connectOk);
    }

    /** The `queue` command's reply. */
    method ShowQueue() returns (msg: string)
      ensures msg == QueueReplyOf(State())
    {
      if voice.None? {
        return Text.NotConnectedReply;
      }
      if streaming {
        return Text.StreamingReply;
      }
      var current := q.current;
      var pending := q.GetQueueInfo();
      if current.None? && pending == [] {
        return Text.EmptyQueueReply;
      }
      var upNext := Text.BuildUpNext(pending);
      msg := Text.QueueHead(current) + upNext;
    }
  }
}
