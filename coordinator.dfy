/**
 * The playback coordinator (`RadioService`). Every public command posts a
 * closure to one handler thread; the thread runs the closures one at a time in
 * the order they were posted. Player callbacks are delivered on the looper of
 * the thread that created the player, which is the same handler thread, so
 * they are queued behind the commands as well.
 *
 * The first half of the module is a functional model (`Service`, `Machine`,
 * `Execute`, `Apply`, `Trace`); the class `RadioService` at the end holds the
 * same state in fields and is proved to follow it step by step.
 */
module Coordinator {
  import opened RadioTypes
  import opened Engine

  /** A closure sitting in the handler's message queue. */
  datatype Command =
    | Play(station: RadioStation)      // the body posted by `playRadio`
    | Pause                            // the body posted by `pauseRadio`
    | Resume                           // the body posted by `resumeRadio`
    | SetVolume(v: Volume)             // the body posted by `setVolume`
    | Callback(event: EngineEvent)     // a player listener (prepared, error, completion)

  /**
   * The service's fields. `focusRequested` stands for the audio-focus request
   * being held, `foreground` for the foreground notification being shown and
   * `quit` for `handlerThread.quitSafely()` having been called.
   */
  datatype Service = Service(
    currentStation: Option<RadioStation>,
    isPlaying: bool,
    volume: Volume,
    mediaPlayer: Option<SessionId>,
    players: Players,
    nextSession: SessionId,
    focusRequested: bool,
    foreground: bool,
    quit: bool)

  /** The service together with the commands posted to it and not yet run. */
  datatype Machine = Machine(service: Service, queue: seq<Command>)

  /** What running one command leaves behind: the new fields and the closures it posted. */
  datatype Outcome = Outcome(service: Service, posted: seq<Command>)

  /** The service right after `onCreate`: field initialisers, an empty queue. */
  const Created: Machine :=
    Machine(Service(None, false, InitialVolume, None, map[], 0, false, false, false), [])

  /**
   * The structural invariant: at most one player session is live, it is the
   * one `mediaPlayer` names, and that name was handed out before.
   */
  predicate Consistent(s: Service)
  {
    && AtMostOneLive(s.players, s.mediaPlayer)
    && (s.mediaPlayer.Some? ==> s.mediaPlayer.value < s.nextSession)
  }

  /** `handler.post { … }`: a post to a looper that has quit is dropped. */
  function Post(s: Service, c: Command): (r: seq<Command>)
    ensures r == [] <==> s.quit
    ensures r != [] ==> r == [c]
  {
    if s.quit then [] else [c]
  }

  /** The guard of the toggle branch in `playRadio`. */
  predicate IsToggle(s: Service, station: RadioStation)
  {
    IsCurrentUrl(s.currentStation, station) && s.isPlaying
  }

  // Android's `AudioManager` focus-change codes.
  const AUDIOFOCUS_GAIN: int := 1
  const AUDIOFOCUS_LOSS: int := -1
  const AUDIOFOCUS_LOSS_TRANSIENT: int := -2
  const AUDIOFOCUS_LOSS_TRANSIENT_CAN_DUCK: int := -3

  /** The focus-change listener: which command, if any, a focus-change code leads to. */
  function FocusCommand(focusChange: int): (r: Option<Command>)
    ensures r == Some(Pause) <==> focusChange == AUDIOFOCUS_LOSS || focusChange == AUDIOFOCUS_LOSS_TRANSIENT
    ensures r == Some(Resume) <==> focusChange == AUDIOFOCUS_GAIN
    ensures r.None? <==> focusChange !in {AUDIOFOCUS_LOSS, AUDIOFOCUS_LOSS_TRANSIENT, AUDIOFOCUS_GAIN}
  {
    if focusChange == AUDIOFOCUS_LOSS || focusChange == AUDIOFOCUS_LOSS_TRANSIENT then Some(Pause)
    else if focusChange == AUDIOFOCUS_GAIN then Some(Resume)
    else None
  }

  /**
   * Runs one closure on the handler thread. `setupFails` says whether building
   * the new player throws (the exception is caught inside the closure).
   */
  function Execute(s: Service, c: Command, setupFails: bool): (o: Outcome)
    ensures Consistent(s) ==> Consistent(o.service)
    ensures o.service.quit == s.quit
    ensures o.posted == [] || (c.Play? && o.posted == [Pause] && !s.quit)
    ensures o.posted != [] ==> c.Play? && IsToggle(s, c.station)
  {
    match c
    case Play(station) =>
      if IsToggle(s, station) then Outcome(s, Post(s, Pause))
      else
        var released := ReleasePlayer(s.players, s.mediaPlayer);
        var prepared := s.(focusRequested := true, players := released,
                           currentStation := Some(station), foreground := true);
        if setupFails then
          // the assignment to `mediaPlayer` never happens: it keeps the released handle
          Outcome(prepared.(isPlaying := false), [])
        else
          Outcome(prepared.(players := CreatePlayer(released, s.nextSession, station.url),
                            mediaPlayer := Some(s.nextSession),
                            nextSession := s.nextSession + 1), [])
    case Pause =>
      Outcome(s.(players := PausePlayer(s.players, s.mediaPlayer), isPlaying := false), [])
    case Resume =>
      Outcome(s.(focusRequested := true, players := StartPlayer(s.players, s.mediaPlayer),
                 isPlaying := true), [])
    case SetVolume(v) =>
      Outcome(s.(volume := v, players := SetPlayerVolume(s.players, s.mediaPlayer, v)), [])
    case Callback(event) =>
      var id := event.session;
      if id !in s.players then Outcome(s, [])     // a released player has no listeners left
      else match event
        case Prepared(_) =>
          Outcome(s.(players := s.players[id := s.players[id].(gain := Some(s.volume), running := true)],
                     isPlaying := true), [])
        case Error(_) =>
          Outcome(s.(players := SetRunning(s.players, Some(id), false), isPlaying := false), [])
        case Completion(_) =>
          Outcome(s.(players := SetRunning(s.players, Some(id), false), isPlaying := false), [])
  }

  /** `onDestroy`: release the player, quit the looper, abandon focus, leave the foreground. */
  function Destroyed(s: Service): (r: Service)
    ensures Consistent(s) ==> Consistent(r) && r.players == map[]
    ensures r.quit && r.mediaPlayer.None?
  {
    s.(players := ReleasePlayer(s.players, s.mediaPlayer), mediaPlayer := None, quit := true,
       focusRequested := false, foreground := false)
  }

  /** Posting `c` from outside the handler thread. */
  function Enqueue(m: Machine, c: Command): (r: Machine)
    ensures r.service == m.service && m.queue <= r.queue
    ensures |r.queue| == |m.queue| + (if m.service.quit then 0 else 1)
    ensures !m.service.quit ==> r.queue[|m.queue|] == c
  {
    Machine(m.service, m.queue + Post(m.service, c))
  }

  /** The handler thread takes the oldest pending closure and runs it; its own posts go to the back. */
  function RunHead(m: Machine, setupFails: bool): (r: Machine)
    ensures m.queue == [] ==> r == m
    ensures m.queue != [] ==>
      && r.service == Execute(m.service, m.queue[0], setupFails).service
      && m.queue[1..] <= r.queue
      && |r.queue| <= |m.queue|
    ensures Consistent(m.service) ==> Consistent(r.service)
    ensures r.service.quit == m.service.quit
  {
    if m.queue == [] then m
    else
      var o := Execute(m.service, m.queue[0], setupFails);
      Machine(o.service, m.queue[1..] + o.posted)
  }

  /** Everything that can happen to the service from outside, one event at a time. */
  datatype Input =
    | PlayRequest(station: RadioStation)    // `playRadio(station)`
    | PauseRequest                          // `pauseRadio()`
    | ResumeRequest                         // `resumeRadio()`
    | VolumeRequest(v: Volume)              // `setVolume(v)`
    | FocusChange(focusChange: int)         // the audio-focus listener fires
    | EngineSignal(event: EngineEvent)      // a player raises a callback
    | Tick(setupFails: bool)                // the handler thread runs one closure
    | Destroy                               // `onDestroy()`

  function Apply(m: Machine, i: Input): (r: Machine)
    ensures Consistent(m.service) ==> Consistent(r.service)
  {
    match i
    case PlayRequest(station) => Enqueue(m, Play(station))
    case PauseRequest => Enqueue(m, Pause)
    case ResumeRequest => Enqueue(m, Resume)
    case VolumeRequest(v) => Enqueue(m, SetVolume(v))
    case FocusChange(code) =>
      // the listener exists only once focus has been requested, and is gone once it is abandoned
      if m.service.focusRequested && FocusCommand(code).Some? then Enqueue(m, FocusCommand(code).value) else m
    case EngineSignal(event) =>
      if event.session in m.service.players then Enqueue(m, Callback(event)) else m
    case Tick(setupFails) => RunHead(m, setupFails)
    case Destroy => Machine(Destroyed(m.service), m.queue)
  }

  /** The machine after a whole sequence of inputs. */
  function Trace(m: Machine, inputs: seq<Input>): Machine
    decreases |inputs|
  {
    if inputs == [] then m else Trace(Apply(m, inputs[0]), inputs[1..])
  }

  /** The service object. */
  class RadioService {
    var currentStation: Option<RadioStation>
    var isPlaying: bool
    var volume: Volume
    var mediaPlayer: Option<SessionId>
    var players: Players
    var nextSession: SessionId
    var focusRequested: bool
    var foreground: bool
    var quit: bool
    var queue: seq<Command>

    function Snapshot(): Service
      reads this
    {
      Service(currentStation, isPlaying, volume, mediaPlayer, players, nextSession,
              focusRequested, foreground, quit)
    }

    function Current(): Machine
      reads this
    {
      Machine(Snapshot(), queue)
    }

    ghost predicate Valid()
      reads this
    {
      Consistent(Snapshot())
    }

    /** `onCreate`: the handler thread is started with nothing queued. */
    constructor ()
      ensures Valid() && Current() == Created
    {
      currentStation, isPlaying, volume := None, false, InitialVolume;
      mediaPlayer, players, nextSession := None, map[], 0;
      focusRequested, foreground, quit := false, false, false;
      queue := [];
    }

    /** `getCurrentState()`: exactly the three published fields. */
    function GetCurrentState(): (r: RadioState)
      reads this
      ensures r.currentStation == currentStation && r.isPlaying == isPlaying && r.volume == volume
    {
      RadioState(currentStation, isPlaying, volume)
    }

    method PostCommand(c: Command)
      modifies this`queue
      ensures Current() == Enqueue(old(Current()), c)
    {
      if !quit {
        queue := queue + [c];
      }
    }

    method PlayRadio(station: RadioStation)
      modifies this`queue
      ensures Current() == Apply(old(Current()), PlayRequest(station))
    {
      PostCommand(Play(station));
    }

    method PauseRadio()
      modifies this`queue
      ensures Current() == Apply(old(Current()), PauseRequest)
    {
      PostCommand(Pause);
    }

    method ResumeRadio()
      modifies this`queue
      ensures Current() == Apply(old(Current()), ResumeRequest)
    {
      PostCommand(Resume);
    }

    method SetVolume(newVolume: Volume)
      modifies this`queue
      ensures Current() == Apply(old(Current()), VolumeRequest(newVolume))
    {
      PostCommand(Command.SetVolume(newVolume));
    }

    /** The listener registered by `requestAudioFocus`. */
    method OnAudioFocusChange(focusChange: int)
      modifies this`queue
      ensures Current() == Apply(old(Current()), FocusChange(focusChange))
    {
      if !focusRequested {
        return;
      }
      if focusChange == AUDIOFOCUS_LOSS {
        PauseRadio();
      } else if focusChange == AUDIOFOCUS_LOSS_TRANSIENT {
        PauseRadio();
      } else if focusChange == AUDIOFOCUS_GAIN {
        ResumeRadio();
      }
    }

    /** A live player raises a callback; it is delivered through the handler queue. */
    method OnEngineEvent(event: EngineEvent)
      modifies this`queue
      ensures Current() == Apply(old(Current()), EngineSignal(event))
    {
      if event.session in players {
        PostCommand(Callback(event));
      }
    }

    /** The handler thread runs the oldest pending closure. */
    method Step(setupFails: bool)
      requires Valid()
      modifies this
      ensures Valid()
      ensures Current() == Apply(old(Current()), Tick(setupFails))
    {
      if queue == [] {
        return;
      }
      var c := queue[0];
      queue := queue[1..];
      Run(c, setupFails);
    }

    /** The body of one posted closure. */
    method Run(c: Command, setupFails: bool)
      modifies this
      ensures Snapshot() == Execute(old(Snapshot()), c, setupFails).service
      ensures queue == old(queue) + Execute(old(Snapshot()), c, setupFails).posted
    {
      match c {
        case Play(station) => RunPlay(station, setupFails);
        case Pause =>
          players := PausePlayer(players, mediaPlayer);
          isPlaying := false;
        case Resume =>
          focusRequested := true;
          players := StartPlayer(players, mediaPlayer);
          isPlaying := true;
        case SetVolume(v) =>
          volume := v;
          players := SetPlayerVolume(players, mediaPlayer, v);
        case Callback(event) => RunCallback(event);
      }
    }

    /** The closure posted by `playRadio`. */
    method RunPlay(station: RadioStation, setupFails: bool)
      modifies this
      ensures Snapshot() == Execute(old(Snapshot()), Play(station), setupFails).service
      ensures queue == old(queue) + Execute(old(Snapshot()), Play(station), setupFails).posted
    {
      if IsCurrentUrl(currentStation, station) && isPlaying {
        PauseRadio();
        return;
      }
      focusRequested := true;
      players := ReleasePlayer(players, mediaPlayer);
      currentStation := Some(station);
      foreground := true;
      if setupFails {
        isPlaying := false;
      } else {
        players := CreatePlayer(players, nextSession, station.url);
        mediaPlayer := Some(nextSession);
        nextSession := nextSession + 1;
      }
    }

    /** The prepared, error and completion listeners of the live player. */
    method RunCallback(event: EngineEvent)
      modifies this
      ensures Snapshot() == Execute(old(Snapshot()), Callback(event), false).service
      ensures queue == old(queue)
    {
      var id := event.session;
      if id !in players {
        return;
      }
      match event {
        case Prepared(_) =>
          players := players[id := players[id].(gain := Some(volume))];
          players := players[id := players[id].(running := true)];
          isPlaying := true;
        case Error(_) =>
          players := SetRunning(players, Some(id), false);
          isPlaying := false;
        case Completion(_) =>
          players := SetRunning(players, Some(id), false);
          isPlaying := false;
      }
    }

    method OnDestroy()
      requires Valid()
      modifies this
      ensures Valid()
      ensures Current() == Apply(old(Current()), Destroy)
    {
      players := ReleasePlayer(players, mediaPlayer);
      mediaPlayer := None;
      quit := true;
      focusRequested := false;
      foreground := false;
    }
  }
}
