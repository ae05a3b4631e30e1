/**
 * The older, self-contained player inside `MainActivity`. The UI state
 * (`currentStation`, `isPlaying`, `volume`) lives in Compose state variables,
 * the player in a `mediaPlayer` field; the station, volume and toggle handlers
 * post closures to the activity's own handler thread, while `onPause`,
 * `onResume` and `onDestroy` act on the player directly.
 *
 * It differs from the service: selecting a station sets `isPlaying` at once
 * rather than when the player is prepared, the prepared listener applies the
 * volume captured when the player was created, and the error listener only
 * logs.
 */
module InActivity {
  import opened RadioTypes
  import opened Engine

  /** A closure sitting in the activity handler's queue. */
  datatype Command =
    | Select(station: RadioStation)    // posted by `onStationSelected`
    | ApplyVolume(v: Volume)           // posted by `onVolumeChanged`
    | Toggle                           // posted by `onPlayPauseToggle`
    | Callback(event: EngineEvent)     // a player listener

  /**
   * The activity's state. `preparedVolume` is the volume handed to the most
   * recent successful `playRadio` call, which that player's prepared listener
   * captured; `quit` stands for `handlerThread.quitSafely()` having been called.
   */
  datatype Activity = Activity(
    currentStation: Option<RadioStation>,
    isPlaying: bool,
    volume: Volume,
    mediaPlayer: Option<SessionId>,
    players: Players,
    nextSession: SessionId,
    preparedVolume: Volume,
    quit: bool)

  datatype Machine = Machine(activity: Activity, queue: seq<Command>)

  /** The activity after `onCreate`: `remember` initial values, no player, nothing queued. */
  const Created: Machine :=
    Machine(Activity(None, false, InitialVolume, None, map[], 0, InitialVolume, false), [])

  /** At most one player session is live, it is the one `mediaPlayer` names, and that name was handed out before. */
  predicate Consistent(a: Activity)
  {
    && AtMostOneLive(a.players, a.mediaPlayer)
    && (a.mediaPlayer.Some? ==> a.mediaPlayer.value < a.nextSession)
  }

  /** `handler.post { … }`: dropped once the looper has quit. */
  function Post(a: Activity, c: Command): (r: seq<Command>)
    ensures r == [] <==> a.quit
    ensures r != [] ==> r == [c]
  {
    if a.quit then [] else [c]
  }

  /**
   * `playRadio(station, volume)`: release the old player, then create one for
   * `station` whose prepared listener will apply `volume`. When setup throws
   * the exception is swallowed and `mediaPlayer` keeps the released handle.
   */
  function Played(a: Activity, station: RadioStation, volume: Volume, setupFails: bool): (r: Activity)
    ensures Consistent(a) ==> Consistent(r)
    ensures Consistent(a) ==> r.players == if setupFails then map[] else map[a.nextSession := Player(station.url, false, None)]
    ensures r.currentStation == a.currentStation && r.isPlaying == a.isPlaying && r.volume == a.volume
    ensures r.quit == a.quit
  {
    var released := ReleasePlayer(a.players, a.mediaPlayer);
    if setupFails then a.(players := released)
    else a.(players := CreatePlayer(released, a.nextSession, station.url),
            mediaPlayer := Some(a.nextSession), nextSession := a.nextSession + 1,
            preparedVolume := volume)
  }

  /** Runs one closure on the activity's handler thread; none of them posts anything. */
  function Execute(a: Activity, c: Command, setupFails: bool): (r: Activity)
    ensures Consistent(a) ==> Consistent(r)
    ensures r.quit == a.quit
  {
    match c
    case Select(station) =>
      if IsCurrentUrl(a.currentStation, station) && a.isPlaying then
        a.(players := PausePlayer(a.players, a.mediaPlayer), isPlaying := false)
      else
        Played(a, station, a.volume, setupFails).(currentStation := Some(station), isPlaying := true)
    case ApplyVolume(v) =>
      a.(players := SetPlayerVolume(a.players, a.mediaPlayer, v))
    case Toggle =>
      var acted :=
        if a.isPlaying then a.(players := PausePlayer(a.players, a.mediaPlayer))
        else if a.currentStation.Some? then Played(a, a.currentStation.value, a.volume, setupFails)
        else a;
      acted.(isPlaying := !a.isPlaying)
    case Callback(event) =>
      var id := event.session;
      if id !in a.players then a
      else match event
        case Prepared(_) =>
          a.(players := a.players[id := a.players[id].(gain := Some(a.preparedVolume), running := true)])
        case Error(_) =>
          // the error listener only logs; the player itself stops
          a.(players := SetRunning(a.players, Some(id), false))
        case Completion(_) =>
          // no completion listener is set; the player itself stops
          a.(players := SetRunning(a.players, Some(id), false))
  }

  /** `onDestroy`: release the player, null the field, quit the looper. */
  function Destroyed(a: Activity): (r: Activity)
    ensures Consistent(a) ==> Consistent(r) && r.players == map[]
    ensures r.quit && r.mediaPlayer.None?
  {
    a.(players := ReleasePlayer(a.players, a.mediaPlayer), mediaPlayer := None, quit := true)
  }

  function Enqueue(m: Machine, c: Command): (r: Machine)
    ensures r.activity == m.activity && m.queue <= r.queue
    ensures |r.queue| == |m.queue| + (if m.activity.quit then 0 else 1)
    ensures !m.activity.quit ==> r.queue[|m.queue|] == c
  {
    Machine(m.activity, m.queue + Post(m.activity, c))
  }

  /** The handler thread takes the oldest pending closure and runs it; nothing is posted back. */
  function RunHead(m: Machine, setupFails: bool): (r: Machine)
    ensures m.queue == [] ==> r == m
    ensures m.queue != [] ==>
      && r.activity == Execute(m.activity, m.queue[0], setupFails)
      && r.queue == m.queue[1..]
    ensures Consistent(m.activity) ==> Consistent(r.activity)
    ensures r.activity.quit == m.activity.quit
  {
    if m.queue == [] then m
    else Machine(Execute(m.activity, m.queue[0], setupFails), m.queue[1..])
  }

  /** Everything that can happen to the activity, one event at a time. */
  datatype Input =
    | StationSelected(station: RadioStation)  // the `onStationSelected` handler
    | VolumeChanged(v: Volume)                // the `onVolumeChanged` handler
    | PlayPauseToggle                         // the `onPlayPauseToggle` handler
    | EngineSignal(event: EngineEvent)        // a player raises a callback
    | Tick(setupFails: bool)                  // the handler thread runs one closure
    | LifecyclePause                          // `onPause()`
    | LifecycleResume                         // `onResume()`
    | LifecycleDestroy                        // `onDestroy()`

  function Apply(m: Machine, i: Input): (r: Machine)
    ensures Consistent(m.activity) ==> Consistent(r.activity)
  {
    var a := m.activity;
    match i
    case StationSelected(station) => Enqueue(m, Select(station))
    case VolumeChanged(v) =>
      // the state variable changes at once; the player is told later, on the handler thread
      Machine(a.(volume := v), m.queue + Post(a, ApplyVolume(v)))
    case PlayPauseToggle => Enqueue(m, Toggle)
    case EngineSignal(event) =>
      if event.session in a.players then Enqueue(m, Callback(event)) else m
    case Tick(setupFails) => RunHead(m, setupFails)
    case LifecyclePause => Machine(a.(players := PausePlayer(a.players, a.mediaPlayer)), m.queue)
    case LifecycleResume => Machine(a.(players := StartPlayer(a.players, a.mediaPlayer)), m.queue)
    case LifecycleDestroy => Machine(Destroyed(a), m.queue)
  }

  function Trace(m: Machine, inputs: seq<Input>): Machine
    decreases |inputs|
  {
    if inputs == [] then m else Trace(Apply(m, inputs[0]), inputs[1..])
  }

  /** The activity object. */
  class MainActivity {
    var currentStation: Option<RadioStation>
    var isPlaying: bool
    var volume: Volume
    var mediaPlayer: Option<SessionId>
    var players: Players
    var nextSession: SessionId
    var preparedVolume: Volume
    var quit: bool
    var queue: seq<Command>

    function Snapshot(): Activity
      reads this
    {
      Activity(currentStation, isPlaying, volume, mediaPlayer, players, nextSession, preparedVolume, quit)
    }

    function Current(): Machine
      reads this
    {
      Machine(Snapshot(), queue)
    }

    ghost predicate Valid()
      reads this
    {
      Consistent(Snapshot())
    }

    /** `onCreate`: the handler thread is started and the state variables take their initial values. */
    constructor ()
      ensures Valid() && Current() == Created
    {
      currentStation, isPlaying, volume := None, false, InitialVolume;
      mediaPlayer, players, nextSession := None, map[], 0;
      preparedVolume, quit := InitialVolume, false;
      queue := [];
    }

    method PostCommand(c: Command)
      modifies this`queue
      ensures Current() == Enqueue(old(Current()), c)
    {
      if !quit {
        queue := queue + [c];
      }
    }

    method OnStationSelected(station: RadioStation)
      modifies this`queue
      ensures Current() == Apply(old(Current()), StationSelected(station))
    {
      PostCommand(Select(station));
    }

    method OnVolumeChanged(newVolume: Volume)
      modifies this`volume, this`queue
      ensures Current() == Apply(old(Current()), VolumeChanged(newVolume))
    {
      volume := newVolume;
      PostCommand(ApplyVolume(newVolume));
    }

    method OnPlayPauseToggle()
      modifies this`queue
      ensures Current() == Apply(old(Current()), PlayPauseToggle)
    {
      PostCommand(Toggle);
    }

    method OnEngineEvent(event: EngineEvent)
      modifies this`queue
      ensures Current() == Apply(old(Current()), EngineSignal(event))
    {
      if event.session in players {
        PostCommand(Callback(event));
      }
    }

    /** `playRadio(station, volume)` */
    method PlayRadio(station: RadioStation, vol: Volume, setupFails: bool)
      modifies this
      ensures Snapshot() == Played(old(Snapshot()), station, vol, setupFails)
      ensures queue == old(queue)
    {
      players := ReleasePlayer(players, mediaPlayer);
      if !setupFails {
        players := CreatePlayer(players, nextSession, station.url);
        mediaPlayer := Some(nextSession);
        nextSession := nextSession + 1;
        preparedVolume := vol;
      }
    }

    /** `pauseRadio()` */
    method PauseRadio()
      modifies this`players
      ensures players == PausePlayer(old(players), mediaPlayer)
    {
      players := PausePlayer(players, mediaPlayer);
    }

    /** The handler thread runs the oldest pending closure. */
    method Step(setupFails: bool)
      requires Valid()
      modifies this
      ensures Valid()
      ensures Current() == Apply(old(Current()), Tick(setupFails))
    {
      if queue == [] {
        return;
      }
      var c := queue[0];
      queue := queue[1..];
      Run(c, setupFails);
    }

    /** The body of one posted closure. */
    method Run(c: Command, setupFails: bool)
      modifies this
      ensures Snapshot() == Execute(old(Snapshot()), c, setupFails)
      ensures queue == old(queue)
    {
      match c {
        case Select(station) =>
          if IsCurrentUrl(currentStation, station) && isPlaying {
            PauseRadio();
            isPlaying := false;
          } else {
            PlayRadio(station, volume, setupFails);
            currentStation := Some(station);
            isPlaying := true;
          }
        case ApplyVolume(v) =>
          players := SetPlayerVolume(players, mediaPlayer, v);
        case Toggle =>
          if isPlaying {
            PauseRadio();
          } else if currentStation.Some? {
            PlayRadio(currentStation.value, volume, setupFails);
          }
          isPlaying := !isPlaying;
        case Callback(event) =>
          var id := event.session;
          if id in players {
            match event {
              case Prepared(_) =>
                players := players[id := players[id].(gain := Some(preparedVolume))];
                players := players[id := players[id].(running := true)];
              case Error(_) =>
                players := SetRunning(players, Some(id), false);
              case Completion(_) =>
                players := SetRunning(players, Some(id), false);
            }
          }
      }
    }

    method OnPause()
      modifies this`players
      ensures Current() == Apply(old(Current()), LifecyclePause)
    {
      players := PausePlayer(players, mediaPlayer);
    }

    method OnResume()
      modifies this`players
      ensures Current() == Apply(old(Current()), LifecycleResume)
    {
      players := StartPlayer(players, mediaPlayer);
    }

    method OnDestroy()
      requires Valid()
      modifies this
      ensures Valid()
      ensures Current() == Apply(old(Current()), LifecycleDestroy)
    {
      players := ReleasePlayer(players, mediaPlayer);
      mediaPlayer := None;
      quit := true;
    }
  }
}
