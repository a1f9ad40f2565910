/**
 * Runs of the bot: every command and event of discord-bot.py as one
 * `Event`, applied in order to the controller's state. What holds of
 * every state a run reaches from start-up is proved here.
 */
module Session {
  import opened Wrappers
  import opened Machine

  /** A command or event, with what the outside world answers to it. */
  datatype Event =
    | PlayCommand(userChannel: Option<ChannelId>, joinOk: bool, search: string)
    | StreamCommand(userChannel: Option<ChannelId>, joinOk: bool, url: Option<string>)
    | VolumeCommand(vol: int)
    | SkipCommand
    | StopCommand
    | ClearCommand
    | AutoJoinCommand
    | PipeEnded
    | VoiceUpdate(wasHome: bool, isHome: bool, humans: nat, connectOk: bool)
    | BotReady(humans: nat, connectOk: bool)

  /** The transition one event makes, with `w` the answers of the services at that time. */
  function Apply(s: Ctl, w: World, cfg: Config, e: Event): (r: Ctl)
    ensures r.queue.repeat == s.queue.repeat
    ensures Valid(s) ==> Valid(r)
  {
    match e
    case PlayCommand(ch, ok, search) => Play(s, w, ch, ok, search)
    case StreamCommand(ch, ok, url) => Stream(s, w, cfg, ch, ok, url)
    case VolumeCommand(vol) => SetVolume(s, vol)
    case SkipCommand => SkipCmd(s, w)
    case StopCommand => Stop(s)
    case ClearCommand => ClearQueue(s)
    case AutoJoinCommand => ToggleAutoJoin(s)
    case PipeEnded => Finished(s, w)
    case VoiceUpdate(wasHome, isHome, humans, ok) => VoiceStateUpdate(s, w, cfg, wasHome, isHome, humans, ok)
    case BotReady(humans, ok) => Ready(s, cfg, humans, ok)
  }

  /** The state after the events `es`, each with the world it met, in order. */
  function Run(s: Ctl, cfg: Config, es: seq<(World, Event)>): Ctl
    decreases |es|
  {
    if es == [] then s
    else Run(Apply(s, es[0].0, cfg, es[0].1), cfg, es[1..])
  }

  /** No run changes the repeat flag, and every run keeps the invariant. */
  lemma {:induction false} RunKeepsRepeatAndValid(s: Ctl, cfg: Config, es: seq<(World, Event)>)
    ensures Run(s, cfg, es).queue.repeat == s.queue.repeat
    ensures Valid(s) ==> Valid(Run(s, cfg, es))
    decreases |es|
  {
    if es != [] {
      RunKeepsRepeatAndValid(Apply(s, es[0].0, cfg, es[0].1), cfg, es[1..]);
    }
  }

  /**
   * Every state reachable from start-up has repeat off and is valid, so
   * there the source's `play_next` and the corrected one agree.
   */
  lemma ReachableAgreesWithAsWritten(cfg: Config, es: seq<(World, Event)>, w: World, fuel: nat)
    requires fuel > |Run(Initial(), cfg, es).queue.pending|
    ensures !Run(Initial(), cfg, es).queue.repeat && Valid(Run(Initial(), cfg, es))
    ensures PlayNextAsWritten(Run(Initial(), cfg, es), w, fuel) == Some(PlayNext(Run(Initial(), cfg, es), w, false))
  {
    InitialValid();
    RunKeepsRepeatAndValid(Initial(), cfg, es);
    AsWrittenAgreesWithoutRepeat(Run(Initial(), cfg, es), w, fuel);
  }
}
