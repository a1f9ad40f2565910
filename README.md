# discord-pirateFM playback core in Dafny

A model of the playback logic of `discord-bot.py`, a Discord bot that plays
YouTube tracks from a queue and Icecast live streams in one voice channel.
The model covers:

- the music queue (`MusicQueue`);
- the controller that `play`, `stream`, `skip`, `stop`, `clear`, `volume`
  and `autorejoin` drive;
- `play_next`, `handle_playlist` and `play_icecast_stream`;
- the presence handlers that join the designated channel and start the
  configured stream when a listener arrives, and leave when the last one goes;
- the texts derived from the state: the presence status, the stream's
  now-playing line, the `mins:ss` duration, the Icecast status URL and the
  `queue` listing.

Modules, one per part of the program:

- `Wrappers`: `Option`.
- `Tracks`: the track records (`track_info` dictionaries) and how a resolved
  search or a playlist entry becomes one.
- `Queue`: the queue as a value (`QState`) with the pure `Advance`
  (`get_next_track`) and `Skip` (`skip_track`), the FIFO and repeat lemmas,
  and the class `MusicQueue`, whose methods update the queue in place and are
  proved against those functions.
- `Text`: decimal numbers, `split('/')`/`'/'.join`, durations, status and
  now-playing texts, the queue listing and the loop that builds it.
- `Machine`: the controller state `Ctl` (queue, voice connection, audio
  pipe, `is_playing_stream`, the default volume as a percent,
  `auto_join_enabled`) with one transition function per command or event.
  Each one preserves the invariant `Valid`. The module also holds the
  source's own `play_next` and the lemmas about it.
- `Bot`: the class `Controller`, whose fields are the source's globals.
  Each handler is a method proved to make exactly the `Machine` transition.
- `Session`: every command and event as one `Event`, and runs of them from
  start-up; no run turns repeat on, so every reachable state is one where the
  source's `play_next` and the corrected one agree.
- `Scenarios`: multi-step runs (three plays then advance and skip, a failed
  resolution, a volume change carrying over, stream replacing the queue,
  the last listener leaving).

External services are parameters:

- a `World` says which searches resolve to a video (yt_dlp), what each
  playlist extraction yields and which stream URLs pass the reachability
  probe (aiohttp);
- `userChannel`/`joinOk` stand for the caller's voice channel and for
  whether connecting or moving succeeds;
- `humans` is the number of non-bot members in the designated channel, and
  `connectOk` tells whether the presence handlers' `channel.connect()` succeeds;
- the Icecast status document is an `Option<IceStats>`.

The `stream` command stops the audio and, unless a stream was already on,
clears the queue *before* the probe (discord-bot.py:434-443). An unreachable
stream therefore leaves the bot silent, with an empty queue when it was
switching from the music queue (`Machine.Stream`).

## Model

| member | source | states |
|---|---|---|
| Queue.Advance | discord-bot.py:99-106 | repeat on with a current track: returns it and changes nothing; otherwise a track comes back iff one is pending, and then it is the head, it becomes the current track and the rest stays pending in order; nothing pending: returns nothing and changes nothing |
| Queue.Skip | discord-bot.py:108-112 | ignores repeat: returns a track iff one is pending, pops the head into the current slot; otherwise nothing changes |
| Queue.AdvanceIsFifo | discord-bot.py:99-106 | with repeat off, n successive `get_next_track` calls return the first n pending tracks in insertion order, leave the rest pending and the last returned as current |
| Queue.EnqueueThenAdvance | discord-bot.py:93-106 | tracks enqueued on an idle queue come back from `get_next_track` exactly in the order they were added, leaving nothing pending |
| Queue.RepeatReplaysForever | discord-bot.py:99-101 | with repeat on and a current track, any number of calls return that track and never change the queue |
| Queue.MusicQueue.constructor | discord-bot.py:87-91 | a new queue is idle, with repeat and shuffle off |
| Queue.MusicQueue.AddTrack | discord-bot.py:93-94 | exactly one track appended at the tail; current track and flags unchanged |
| Queue.MusicQueue.AddPlaylist | discord-bot.py:96-97 | the tracks appended at the tail in their given order; current track and flags unchanged |
| Queue.MusicQueue.GetNextTrack | discord-bot.py:99-106 | result and new queue are exactly those of `Advance` on the old queue |
| Queue.MusicQueue.SkipTrack | discord-bot.py:108-112 | result and new queue are exactly those of `Skip` on the old queue |
| Queue.MusicQueue.Clear | discord-bot.py:114-116 | afterwards the queue is idle (no pending track, no current track); flags unchanged |
| Queue.MusicQueue.GetQueueInfo | discord-bot.py:118-119 | returns the pending tracks, without the current one |
| Queue.MusicQueue.IsEmpty | discord-bot.py:121-122 | true iff nothing is pending and there is no current track |
| Text.NatToString | discord-bot.py:531 | the decimal text of a count is non-empty, all digits, and starts with '0' only for zero |
| Text.ParseNatToString | discord-bot.py:531 | the decimal text of a count reads back as that count |
| Text.ParseIntToString | discord-bot.py:599 | `str(mins)` of any integer, sign included, reads back as that integer |
| Text.Pad2 | discord-bot.py:599 | `{secs:02d}` of a second count below 60 is two digits, the first at most '5' |
| Text.FormatDuration | discord-bot.py:598-599 | the duration text ends in ':' and two digits forming a second count below 60 |
| Text.DurationRoundTrip | discord-bot.py:598-599 | the `mins:ss` text of any duration, negative ones included, reads back as that duration (`divmod` by 60 loses nothing) |
| Text.Pad2RoundTrip | discord-bot.py:599 | the two zero-padded digits read back as the second count they show |
| Text.DurationLine | discord-bot.py:597-599 | a duration line is shown iff the duration is present and not zero, and it carries the `mins:ss` text |
| Text.Split | discord-bot.py:29 | `split('/')` gives at least one piece, no piece holds '/', and exactly one piece iff the text has no '/' |
| Text.JoinSplit | discord-bot.py:29 | joining the pieces of `split('/')` with '/' gives the text back |
| Text.JoinSnoc | discord-bot.py:29 | joining a list with one more piece adds '/' and that piece at the end |
| Text.BaseUrlAndMount | discord-bot.py:29-30 | the base URL, '/', and the last segment make up the stream URL; the last segment has no '/'; the status URL is the stream's directory followed by `status-json.xsl`; a URL without '/' has an empty base |
| Text.StatusText | discord-bot.py:218-225 | the stream's now-playing text while streaming, else the current title, else "Ready for music!", which appears iff neither applies |
| Text.NowPlaying | discord-bot.py:191-211 | "Unknown" without a status; "artist : title" when both are non-empty; else the server name when present; else the host (default "unknown host") and the mount name of the stream URL |
| Text.UpNext | discord-bot.py:530-536 | nothing for no pending track; else a header with the count, at most 10 entries numbered from 1 naming the pending tracks in order, and a "... and N more" line with N = length − 10 iff more than 10 are pending |
| Text.BuildUpNext | discord-bot.py:530-536 | the loop builds exactly the "Up Next" lines run together |
| Text.QueueReply | discord-bot.py:507-536 | not connected: the not-connected reply; streaming: the streaming reply; nothing queued or current: the empty-queue reply; otherwise the title, the current track when there is one, and the "Up Next" text of the pending tracks |
| Machine.InitialValid | discord-bot.py:134-138 | the start-up state (empty queue, volume 50, no stream, auto-join on) satisfies the controller invariant |
| Machine.PlayStream | discord-bot.py:301-347 | with a reachable URL and a connected, silent voice client, a stream pipe starts at the default volume and the stream flag goes on; otherwise nothing changes; the invariant is kept |
| Machine.Attend | discord-bot.py:238-267 | one pass of `play_next`: with no track the current slot is reset; a YouTube track becomes current with its source resolved (the cached one, else a fresh one at the default volume if the url resolves), plays at that source's gain when connected and silent, and a retry happens iff it cannot be resolved; an Icecast track is handed to the stream; connection, volume and auto-join are kept; the invariant is kept |
| Machine.SkippingAgreesWithoutRepeat | discord-bot.py:99-112 | with repeat off, `get_next_track` and `skip_track` make the same `play_next` pass |
| Machine.PlayNext | discord-bot.py:236-268 | tracks are only taken from the head of the pending list; from a connected silent state audio plays, or the current slot is empty, or it holds an Icecast track whose probe failed; connection, volume, repeat and auto-join are kept; the invariant is kept (which track plays: `PlayNextTakesHead`, `PlayNextReplays`) |
| Machine.StepsKeepSuffix | discord-bot.py:99-112 | `get_next_track` and `skip_track` leave a suffix of the pending list: tracks only ever leave from the head |
| Machine.PlayNextTakesHead | discord-bot.py:236-267 | with nothing to replay: no pending track resets the current slot; otherwise the head becomes current and the rest stays pending; an Icecast head goes to the stream; a resolvable YouTube head plays at its source's gain when connected and silent, with the source cached; an unresolvable one is passed over for the next pending track |
| Machine.PlayNextReplays | discord-bot.py:236-265 | under repeat the current track is played again the same way, and when it cannot be resolved the corrected `play_next` skips to the head of the pending list |
| Machine.PlayNextAsWritten | discord-bot.py:236-265 | the source's `play_next`, recursion bounded by fuel: when it settles, connection, volume, auto-join and repeat are kept and the pending list is a suffix of the old one |
| Machine.RepeatFailureNeverSettles | discord-bot.py:236-265 | with repeat on and an unresolvable current track, the source's `play_next` retries the same track at every depth and never settles |
| Machine.StuckOnRepeatIsSatisfiable | discord-bot.py:99-101 | the premise of `RepeatFailureNeverSettles` can be met: any state given repeat on and an unresolvable current track is stuck in that way (no command sets repeat, so no run reaches it) |
| Machine.PlayNextSkipsStuckTrack | discord-bot.py:260-262 | the corrected `play_next` moves past the stuck track: a pending track is taken, or the current slot is emptied |
| Machine.AsWrittenAgreesWithoutRepeat | discord-bot.py:236-265 | with repeat off, the source's `play_next` and the corrected one give the same state, with one level of recursion per pending track |
| Machine.PresentTracks | discord-bot.py:282-292 | skips missing entries, keeps one unresolved YouTube track per present entry, and keeps all when none is missing |
| Machine.PresentTracksSnoc | discord-bot.py:282-292 | one more playlist entry adds its track at the end exactly when the entry is present |
| Machine.PlaylistTracks | discord-bot.py:277-292 | the tracks a playlist adds: at most 50, none with a cached source |
| Machine.HandlePlaylist | discord-bot.py:270-299 | an unknown playlist changes nothing; otherwise the tracks of the present entries among the first 50 are appended in order, and then, if no audio plays, `play_next` runs on the extended queue; connection, volume, auto-join and repeat are kept; the invariant is kept |
| Machine.AppendKeepsQueueOk | discord-bot.py:292 | appending tracks whose cached sources have percentage gains keeps every gain in the queue a percentage |
| Machine.Contains | discord-bot.py:374 | `sub in s` holds iff `sub` occurs in `s` at some index |
| Machine.LeaveStream | discord-bot.py:366-369 | a playing stream is stopped and the stream flag cleared; otherwise nothing changes; afterwards no stream plays |
| Machine.Play | discord-bot.py:350-404 | without a channel or a failed connect nothing changes; otherwise the bot is in the user's channel and a playing stream is stopped; a playlist search is `handle_playlist` on that state; a resolved video is appended when a track plays, or becomes current and starts at the default volume; an unresolved one leaves that state as it is, audio included; volume, auto-join and repeat are kept; the invariant is kept |
| Machine.StreamUrl | discord-bot.py:432 | the given URL when present and non-empty, else the configured one |
| Machine.Stream | discord-bot.py:406-443 | after joining, the queue is cleared unless a stream was on; a reachable URL (the given one, or the configured one when missing or empty) starts the stream, an unreachable one leaves the bot silent; volume, auto-join and repeat are kept; the invariant is kept |
| Machine.SetVolume | discord-bot.py:445-470 | accepted iff connected and 0 ≤ vol ≤ 100; then the new state is the old with the default volume and the playing audio's gain set to vol, so what plays plays at the default volume; otherwise nothing changes |
| Machine.Finished | discord-bot.py:253-256 | a track pipe ending runs `play_next`; a stream pipe ending only goes silent; the invariant is kept |
| Machine.SkipCmd | discord-bot.py:488-494 | while connected and playing, the same as the pipe ending; otherwise nothing changes |
| Machine.Stop | discord-bot.py:550-561 | when connected: silent, disconnected, queue idle, stream flag off, volume and auto-join kept; otherwise nothing changes |
| Machine.ClearQueue | discord-bot.py:544-548 | the queue becomes idle and nothing else changes |
| Machine.ToggleAutoJoin | discord-bot.py:654-659 | flips the auto-join flag and nothing else |
| Machine.UserJoined | discord-bot.py:708-728 | with a listener present, the bot not connected and the connect succeeding, it connects to the designated channel and starts the stream at the default volume; otherwise nothing changes |
| Machine.UserLeft | discord-bot.py:730-741 | with no listener left and the bot in the designated channel, it disconnects, goes silent and clears the stream flag; if a track was playing, its callback then runs `play_next` without a connection, which advances the queue but plays nothing; a stream pipe keeps the queue; otherwise nothing changes |
| Machine.PlayNextDisconnected | discord-bot.py:236-267 | without a voice connection `play_next` leaves the pipe and the stream flag as they were, at every depth of its retries |
| Machine.VoiceStateUpdate | discord-bot.py:688-706 | nothing when auto-join is off; a member now in the designated channel counts as a join, one who left it as a leave, anything else changes nothing |
| Machine.Ready | discord-bot.py:669-686 | at start-up, the join rule applies when auto-join is on, and nothing happens otherwise |
| Scenarios.PlayThreeThenAdvance | discord-bot.py:389-402 | three plays while idle: the first plays and the other two wait in order; the pipe ending starts the second; a skip starts the third |
| Scenarios.FailedTrackIsPassedOver | discord-bot.py:260-262 | an unresolvable head track is passed over and the next one plays without a command |
| Scenarios.VolumeCarriesToLaterTracks | discord-bot.py:457-463 | a volume set while a track plays changes its gain at once, and a track queued after it starts at that volume |
| Scenarios.StreamReplacesQueue | discord-bot.py:439-441 | switching from the queue to a stream empties the queue, so the next `get_next_track` finds nothing |
| Scenarios.LeaveThenPlayNeedsReconnect | discord-bot.py:730-741 | the last listener leaving a stream disconnects the bot and clears the flag, and a later `play` whose connection fails changes nothing |
| Scenarios.LeaveWhileTrackPlays | discord-bot.py:253-267 | the last listener leaving while a track plays disconnects the bot; the callback takes the next pending track into the current slot without playing it, or empties the slot when nothing is pending |
| Scenarios.StopCallbackIsHarmless | discord-bot.py:265-267 | `play_next` run by the callback after `stop` changes nothing |
| Session.Apply | discord-bot.py:87-91 | no command or event changes the repeat flag (only the constructor assigns `repeat_mode`), and each keeps the invariant |
| Session.RunKeepsRepeatAndValid | discord-bot.py:87-91 | any sequence of commands and events keeps the repeat flag and the invariant |
| Session.ReachableAgreesWithAsWritten | discord-bot.py:236-265 | every state reached from start-up has repeat off and is valid, and there the source's `play_next` and the corrected one give the same state |
| Bot.Controller.constructor | discord-bot.py:134-138 | the new controller is in the start-up state |
| Bot.Controller.PlayStream | discord-bot.py:301-347 | the new state is `Machine.PlayStream` of the old |
| Bot.Controller.PlayNext | discord-bot.py:236-268 | the new state is `Machine.PlayNext` of the old |
| Bot.Controller.AttendTo | discord-bot.py:238-265 | one pass of `play_next` makes the `Machine.Attend` step and reports whether the track failed to resolve |
| Bot.Controller.HandlePlaylist | discord-bot.py:270-299 | the new state is `Machine.HandlePlaylist` of the old |
| Bot.Controller.AddEntries | discord-bot.py:282-292 | the loop appends the tracks of the present entries, in order, and changes nothing else of the queue |
| Bot.Controller.Play | discord-bot.py:350-404 | the new state is `Machine.Play` of the old |
| Bot.Controller.PlaySearch | discord-bot.py:372-404 | once connected with no stream playing, the new state is `Machine.Play` of the old |
| Bot.Controller.Stream | discord-bot.py:406-443 | the new state is `Machine.Stream` of the old |
| Bot.Controller.SetVolume | discord-bot.py:445-470 | reports whether the value was accepted, and the new state is `Machine.SetVolume` of the old |
| Bot.Controller.Finished | discord-bot.py:253-256 | the new state is `Machine.Finished` of the old |
| Bot.Controller.Skip | discord-bot.py:488-494 | the new state is `Machine.SkipCmd` of the old |
| Bot.Controller.Stop | discord-bot.py:550-561 | the new state is `Machine.Stop` of the old |
| Bot.Controller.ClearQueue | discord-bot.py:544-548 | the new state is `Machine.ClearQueue` of the old |
| Bot.Controller.ToggleAutoJoin | discord-bot.py:654-659 | the new state is `Machine.ToggleAutoJoin` of the old |
| Bot.Controller.HandleUserJoined | discord-bot.py:708-728 | given the listener count and whether the connect succeeds, the new state is `Machine.UserJoined` of the old |
| Bot.Controller.HandleUserLeft | discord-bot.py:730-741 | the loop over voice clients is one test; the disconnect runs a stopped track pipe's callback; the new state is `Machine.UserLeft` of the old |
| Bot.Controller.OnVoiceStateUpdate | discord-bot.py:688-706 | the new state is `Machine.VoiceStateUpdate` of the old |
| Bot.Controller.OnReady | discord-bot.py:669-686 | the new state is `Machine.Ready` of the old |
| Bot.Controller.ShowQueue | discord-bot.py:496-542 | the reply is the `queue` reply of the current state |

## Left out

- The Discord transport is not modelled: messages sent with `ctx.send`, `change_presence`, the intents and bot setup, and `bot.run`. A voice connection is the channel it is in. A connect or move in `play` or `stream` that fails is the `joinOk` input, and a failing `channel.connect()` in `handle_user_joined` is the `connectOk` input.
- `get_member_voice` (discord-bot.py:141-174) is not modelled: its fallback chain over Discord objects becomes the `userChannel` input.
- yt_dlp extraction and FFmpeg source construction are not modelled. Whether a search resolves, and what a playlist holds, comes from the `World` input. A failure to build a stream source is not distinguished from a failed `play`.
- The aiohttp status fetch and the stream probe are network I/O. The probe is membership of the URL in `World.streams`, and the status document is the `status` input of `Text.NowPlaying`.
- asyncio scheduling is not modelled: the status loop's 30 s/60 s timing, the `sleep` settle delays, and `run_coroutine_threadsafe`. Stopping a pipe is taken to be synchronous. The `skip` command is modelled as the completion callback running at once.
- Machine.Stream: the completion callback of a stopped track pipe is not run. In the source it can run during `await asyncio.sleep(0.5)` (discord-bot.py:437), before `music_queue.clear()` (441). Then `play_next` starts the next pending track if its source is cached; the clear empties the queue and the current slot; and the stream's `voice_client.play` (335) raises because audio is playing. The source then ends with that track playing, an empty queue and no stream, where `Machine.Stream` and `Scenarios.StreamReplacesQueue` start the stream. With an uncached next track the outcome depends on how long extraction takes.
- Machine.Play: stopping the pipe at discord-bot.py:368 runs no callback in the model. When a stream ended on its own, the stream flag stays set while a later track plays; a further `play` then stops that track pipe, whose `after_playing` schedules `play_next` (253-256) at a time that depends on the player thread. `Machine.LeaveStream` only silences the pipe and clears the flag.
- Machine.Stop: the same callback can run during `await voice_client.disconnect()` (discord-bot.py:556), before the clear. The clear still empties the queue, but a `play_next` still extracting an uncached track can set `current_track` after it. The model runs no callback.
- Machine.SetVolume: the volume is an integer percent, not the float `vol / 100`. Gain application to audio samples is not modelled.
- Bot.Controller: a pipe is either silent or playing; `pause` and `resume` (discord-bot.py:472-486) are not modelled.
- Bot.Controller: the bot has one guild and at most one voice client. The guild and channel lookups that return early when the configured IDs are not found are not modelled.
- The `nowplaying` command is modelled only for its duration line (`Text.DurationLine`); its other message lines are not. The `debug` and `test` commands and all logging are not modelled.
- Configuration loading and validation with `exit(1)` (discord-bot.py:17-26) is not modelled; `Config` holds the stream URL and the designated channel.
- `current_source` is written but never read, and `shuffle_mode` is never read. `shuffle_mode` is kept as a field of `MusicQueue`; `current_source` is not modelled.
- Tracks.Track: `duration` is an integer. yt_dlp can report a float, on which `{secs:02d}` (discord-bot.py:599) raises; that failure of `nowplaying` is not modelled.
- Replaying a consumed FFmpeg source under repeat is not modelled: a cached source is assumed replayable.
- Error messages of the `play` and `stream` commands are not modelled; each error path leaves the state as the code leaves it.

## Findings

| source | as written | input that shows it | evidently intended | confidence | as-written member | corrected member |
|---|---|---|---|---|---|---|
| discord-bot.py:99-101, 260-262 | after a resolution failure `play_next` calls itself, and with `repeat_mode` on `get_next_track` returns the same current track again, so the recursion never ends | `repeat_mode` on, `current_track` a YouTube track with no cached source whose url does not resolve, then the current track ends | a failed track is passed over, and the next pending one is tried ("skipping...") | not executed; latent, since no command sets `repeat_mode` | Machine.RepeatFailureNeverSettles | Machine.PlayNext |
