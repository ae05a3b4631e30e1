/**
 * What the playback coordinator promises: the toggle rule, release before
 * replace, the effect of each listener, FIFO execution on the handler thread,
 * and what teardown leaves behind.
 */
module CoordinatorProperties {
  import opened RadioTypes
  import opened Engine
  import opened Coordinator

  // ---------------------------------------------------------------------------
  // One closure at a time
  // ---------------------------------------------------------------------------

  /** Playing the station already playing only posts a pause; nothing else changes. */
  lemma PlayWhilePlayingOnlyPostsPause(s: Service, station: RadioStation, setupFails: bool)
    requires IsToggle(s, station)
    ensures Execute(s, Play(station), setupFails) == Outcome(s, Post(s, Pause))
  {
  }

  /**
   * Any other play releases the previous player, makes `station` current and,
   * unless setup throws, leaves exactly one fresh live session playing
   * `station`'s URL. `volume` is kept and `isPlaying` is not touched unless the
   * setup throws, in which case it becomes false.
   */
  lemma PlayReplacesSession(s: Service, station: RadioStation, setupFails: bool)
    requires Consistent(s) && !IsToggle(s, station)
    ensures var r := Execute(s, Play(station), setupFails);
      && r.posted == []
      && r.service.currentStation == Some(station)
      && r.service.volume == s.volume
      && r.service.focusRequested && r.service.foreground
      && (s.mediaPlayer.Some? ==> s.mediaPlayer.value !in r.service.players)
      && (!setupFails ==>
            && r.service.players == map[s.nextSession := Player(station.url, false, None)]
            && r.service.mediaPlayer == Some(s.nextSession)
            && s.nextSession !in s.players
            && r.service.isPlaying == s.isPlaying)
      && (setupFails ==>
            && r.service.players == map[]
            && r.service.mediaPlayer == s.mediaPlayer
            && !r.service.isPlaying)
  {
    assert ReleasePlayer(s.players, s.mediaPlayer).Keys == {};
  }

  /** Selecting the current station while it is paused reloads it: the old session goes, a new one is created. */
  lemma PausedStationIsReloaded(s: Service, station: RadioStation)
    requires Consistent(s) && IsCurrentUrl(s.currentStation, station) && !s.isPlaying
    requires s.mediaPlayer.Some? && s.mediaPlayer.value in s.players
    ensures var r := Execute(s, Play(station), false).service;
      && s.mediaPlayer.value !in r.players
      && r.mediaPlayer == Some(s.nextSession) && r.mediaPlayer != s.mediaPlayer
      && !r.players[s.nextSession].running
      && !r.isPlaying
  {
    PlayReplacesSession(s, station, false);
  }

  /** The play closure never sets `isPlaying` to true: only the prepared listener does. */
  lemma PlayNeverStartsPlaying(s: Service, station: RadioStation, setupFails: bool)
    ensures Execute(s, Play(station), setupFails).service.isPlaying ==> s.isPlaying
  {
  }

  /** The prepared listener of the live player applies the volume stored now, starts it, and sets `isPlaying`. */
  lemma PreparedStartsPlayback(s: Service, id: SessionId)
    requires id in s.players
    ensures var r := Execute(s, Callback(Prepared(id)), false);
      && r.posted == []
      && r.service.isPlaying
      && r.service.players == s.players[id := s.players[id].(gain := Some(s.volume), running := true)]
      && r.service.currentStation == s.currentStation && r.service.volume == s.volume
      && r.service.mediaPlayer == s.mediaPlayer
  {
  }

  /** The error and completion listeners stop playback and keep the station. */
  lemma ErrorAndCompletionStopPlayback(s: Service, event: EngineEvent)
    requires event.Error? || event.Completion?
    requires event.session in s.players
    ensures var r := Execute(s, Callback(event), false).service;
      && !r.isPlaying
      && r.currentStation == s.currentStation && r.volume == s.volume
      && r.mediaPlayer == s.mediaPlayer
      && r.players.Keys == s.players.Keys && !r.players[event.session].running
  {
  }

  /** A session that has been released raises nothing: its callbacks leave the service as it was. */
  lemma ReleasedSessionIsInert(s: Service, event: EngineEvent, setupFails: bool)
    requires event.session !in s.players
    ensures Execute(s, Callback(event), setupFails) == Outcome(s, [])
  {
  }

  /** `pauseRadio`: the player (if live) stops, `isPlaying` is false, station and volume stay. */
  lemma PauseStops(s: Service)
    ensures var r := Execute(s, Pause, false).service;
      && !r.isPlaying
      && r.currentStation == s.currentStation && r.volume == s.volume && r.mediaPlayer == s.mediaPlayer
      && r.players.Keys == s.players.Keys
      && (s.mediaPlayer.Some? && s.mediaPlayer.value in s.players ==> !r.players[s.mediaPlayer.value].running)
  {
  }

  /** `resumeRadio`: the player (if live) starts and `isPlaying` is true whether or not there is a station or a player. */
  lemma ResumeStarts(s: Service)
    ensures var r := Execute(s, Resume, false).service;
      && r.isPlaying && r.focusRequested
      && r.currentStation == s.currentStation && r.volume == s.volume && r.mediaPlayer == s.mediaPlayer
      && r.players.Keys == s.players.Keys
      && (s.mediaPlayer.Some? && s.mediaPlayer.value in s.players ==> r.players[s.mediaPlayer.value].running)
  {
  }

  /** `setVolume` stores the value as given, with no clamping, and hands it to the live player. */
  lemma SetVolumeStoresUnclamped(s: Service, v: Volume)
    ensures var r := Execute(s, SetVolume(v), false).service;
      && r.volume == v
      && r.isPlaying == s.isPlaying && r.currentStation == s.currentStation
      && r.players.Keys == s.players.Keys
      && (s.mediaPlayer.Some? && s.mediaPlayer.value in s.players ==> r.players[s.mediaPlayer.value].gain == Some(v))
  {
  }

  /** `onDestroy` leaves no live session, no player reference, no focus and no foreground notification. */
  lemma DestroyReleasesEverything(m: Machine)
    requires Consistent(m.service)
    ensures var r := Apply(m, Destroy);
      && r.service.players == map[] && r.service.mediaPlayer.None?
      && !r.service.focusRequested && !r.service.foreground && r.service.quit
      && r.service.currentStation == m.service.currentStation
      && r.service.isPlaying == m.service.isPlaying
      && r.queue == m.queue
  {
  }

  /** A focus change posts a pause for LOSS and LOSS_TRANSIENT, a resume for GAIN, and nothing for any other code. */
  lemma FocusChangeDispatch(m: Machine, focusChange: int)
    requires m.service.focusRequested && !m.service.quit
    ensures var r := Apply(m, FocusChange(focusChange));
      && r.service == m.service
      && (focusChange == AUDIOFOCUS_LOSS || focusChange == AUDIOFOCUS_LOSS_TRANSIENT ==> r.queue == m.queue + [Pause])
      && (focusChange == AUDIOFOCUS_GAIN ==> r.queue == m.queue + [Resume])
      && (focusChange == AUDIOFOCUS_LOSS_TRANSIENT_CAN_DUCK ==> r.queue == m.queue)
  {
  }

  // ---------------------------------------------------------------------------
  // The handler queue
  // ---------------------------------------------------------------------------

  /** The number of handler-thread turns in a sequence of inputs. */
  function Ticks(inputs: seq<Input>): nat
  {
    if inputs == [] then 0 else (if inputs[0].Tick? then 1 else 0) + Ticks(inputs[1..])
  }

  /** One input either appends to the queue or, on a turn of the handler, removes its oldest entry and appends. */
  lemma ApplyKeepsPending(m: Machine, i: Input)
    ensures (if i.Tick? && m.queue != [] then m.queue[1..] else m.queue) <= Apply(m, i).queue
  {
  }

  lemma DropKeepsPrefix(p: seq<Command>, q: seq<Command>, k: nat)
    requires p <= q && k <= |p|
    ensures p[k..] <= q[k..]
  {
    assert q[k..][..|p| - k] == p[k..];
  }

  /**
   * FIFO: whatever else happens, after `Ticks(inputs)` turns of the handler the
   * commands that were pending and have not yet run are still at the front of
   * the queue, in the order they were posted.
   */
  lemma {:induction false} PendingCommandsRunInOrder(m: Machine, inputs: seq<Input>)
    requires Ticks(inputs) <= |m.queue|
    ensures m.queue[Ticks(inputs)..] <= Trace(m, inputs).queue
    decreases |inputs|
  {
    if inputs != [] {
      var m' := Apply(m, inputs[0]);
      var rest := inputs[1..];
      ApplyKeepsPending(m, inputs[0]);
      if inputs[0].Tick? {
        assert m.queue[1..] <= m'.queue;
        DropKeepsPrefix(m.queue[1..], m'.queue, Ticks(rest));
        assert m.queue[1..][Ticks(rest)..] == m.queue[Ticks(inputs)..];
      } else {
        DropKeepsPrefix(m.queue, m'.queue, Ticks(rest));
      }
      PendingCommandsRunInOrder(m', rest);
    }
  }

  /** Running a toggle posts its pause behind everything already pending; the service itself is untouched. */
  lemma TogglePauseQueuedBehindPending(m: Machine, setupFails: bool)
    requires m.queue != [] && m.queue[0].Play? && IsToggle(m.service, m.queue[0].station)
    requires !m.service.quit
    ensures Apply(m, Tick(setupFails)) == Machine(m.service, m.queue[1..] + [Pause])
  {
  }

  /**
   * ... so the pause runs only after every command that was pending when the
   * toggle ran: with `|m.queue| - 1` further turns of the handler (and any other
   * inputs in between) the pause is at the head of the queue.
   */
  lemma TogglePauseRunsAfterPending(m: Machine, setupFails: bool, inputs: seq<Input>)
    requires m.queue != [] && m.queue[0].Play? && IsToggle(m.service, m.queue[0].station)
    requires !m.service.quit
    requires Ticks(inputs) == |m.queue| - 1
    ensures var r := Trace(Apply(m, Tick(setupFails)), inputs);
      r.queue != [] && r.queue[0] == Pause
  {
    var m1 := Apply(m, Tick(setupFails));
    TogglePauseQueuedBehindPending(m, setupFails);
    PendingCommandsRunInOrder(m1, inputs);
    assert m1.queue[Ticks(inputs)..] == [Pause];
  }

  // ---------------------------------------------------------------------------
  // Whole runs
  // ---------------------------------------------------------------------------

  lemma {:induction false} TraceAppend(m: Machine, xs: seq<Input>, ys: seq<Input>)
    ensures Trace(m, xs + ys) == Trace(Trace(m, xs), ys)
    decreases |xs|
  {
    if xs == [] {
      assert xs + ys == ys;
    } else {
      assert (xs + ys)[0] == xs[0] && (xs + ys)[1..] == xs[1..] + ys;
      TraceAppend(Apply(m, xs[0]), xs[1..], ys);
    }
  }

  lemma TraceOne(m: Machine, i: Input)
    ensures Trace(m, [i]) == Apply(m, i)
  {
    assert [i][1..] == [];
  }

  lemma TraceSnoc(m: Machine, xs: seq<Input>, i: Input)
    ensures Trace(m, xs + [i]) == Apply(Trace(m, xs), i)
  {
    TraceAppend(m, xs, [i]);
    TraceOne(Trace(m, xs), i);
  }

  /** Running one more input of `xs` extends the run by one `Apply`. */
  lemma TracePrefix(m: Machine, xs: seq<Input>, k: nat)
    requires k < |xs|
    ensures Trace(m, xs[..k + 1]) == Apply(Trace(m, xs[..k]), xs[k])
  {
    assert xs[..k + 1] == xs[..k] + [xs[k]];
    TraceSnoc(m, xs[..k], xs[k]);
  }

  /** At most one player session is live after any run from a consistent state. */
  lemma {:induction false} TraceKeepsConsistent(m: Machine, inputs: seq<Input>)
    requires Consistent(m.service)
    ensures Consistent(Trace(m, inputs).service)
    decreases |inputs|
  {
    if inputs != [] {
      TraceKeepsConsistent(Apply(m, inputs[0]), inputs[1..]);
    }
  }

  lemma CreatedIsConsistent()
    ensures Consistent(Created.service) && Created.service.players == map[]
  {
  }

  predicate NoPendingPlay(queue: seq<Command>)
  {
    forall i :: 0 <= i < |queue| ==> !queue[i].Play?
  }

  /**
   * After teardown no session ever becomes live again, provided no play was
   * still pending when the looper quit (`quitSafely` still runs what is
   * queued, and drops every later post).
   */
  lemma {:induction false} NoSessionAfterTeardown(m: Machine, inputs: seq<Input>)
    requires m.service.quit && m.service.players == map[] && NoPendingPlay(m.queue)
    ensures var r := Trace(m, inputs);
      r.service.quit && r.service.players == map[] && NoPendingPlay(r.queue)
    decreases |inputs|
  {
    if inputs != [] {
      var m' := Apply(m, inputs[0]);
      if inputs[0].Tick? && m.queue != [] {
        assert !m.queue[0].Play?;
        assert m'.queue == m.queue[1..];
      } else {
        assert m'.queue == m.queue;
      }
      NoSessionAfterTeardown(m', inputs[1..]);
    }
  }

  /** Teardown followed by anything at all leaves nothing live, unless a play was pending at teardown. */
  lemma TeardownIsFinal(m: Machine, inputs: seq<Input>)
    requires Consistent(m.service) && NoPendingPlay(m.queue)
    ensures Trace(Apply(m, Destroy), inputs).service.players == map[]
  {
    NoSessionAfterTeardown(Apply(m, Destroy), inputs);
  }

  /** The exception: a play still queued at teardown creates a session after the service is destroyed, and nothing releases it. */
  lemma PendingPlayOutlivesTeardown(s: Service, station: RadioStation)
    requires Consistent(s) && !IsToggle(s, station) && !s.quit
    ensures var r := Trace(Machine(s, [Play(station)]), [Destroy, Tick(false)]);
      r.service.quit && r.service.players.Keys == {s.nextSession}
  {
    var m0 := Machine(s, [Play(station)]);
    var xs := [Destroy, Tick(false)];
    assert xs[..0] == [];
    TracePrefix(m0, xs, 0); TracePrefix(m0, xs, 1);
    assert xs[..2] == xs;
  }

  predicate PlaysOnly(queue: seq<Command>, station: RadioStation)
  {
    forall i :: 0 <= i < |queue| ==> queue[i].Play? ==> queue[i].station == station
  }

  predicate RequestsOnly(inputs: seq<Input>, station: RadioStation)
  {
    forall i :: 0 <= i < |inputs| ==> inputs[i].PlayRequest? ==> inputs[i].station == station
  }

  /** Any mix of plays of one station, pauses, resumes, volume changes, focus changes and callbacks never changes the station. */
  lemma {:induction false} OneStationStaysCurrent(m: Machine, inputs: seq<Input>, station: RadioStation)
    requires m.service.currentStation == Some(station)
    requires PlaysOnly(m.queue, station) && RequestsOnly(inputs, station)
    ensures Trace(m, inputs).service.currentStation == Some(station)
    decreases |inputs|
  {
    if inputs != [] {
      var m' := Apply(m, inputs[0]);
      assert inputs[0].PlayRequest? ==> inputs[0].station == station;
      if inputs[0].Tick? && m.queue != [] {
        assert m.queue[0].Play? ==> m.queue[0].station == station;
        assert PlaysOnly(m.queue[1..], station);
      }
      assert PlaysOnly(m'.queue, station);
      assert RequestsOnly(inputs[1..], station);
      OneStationStaysCurrent(m', inputs[1..], station);
    }
  }

  // ---------------------------------------------------------------------------
  // Scenarios
  // ---------------------------------------------------------------------------

  /** `resumeRadio` on a fresh service: playing, with no station and no player. */
  lemma ResumeWithoutStationPlays()
    ensures var r := Trace(Created, [ResumeRequest, Tick(false)]).service;
      r.isPlaying && r.currentStation.None? && r.mediaPlayer.None?
  {
    var xs := [ResumeRequest, Tick(false)];
    assert xs[..0] == [];
    TracePrefix(Created, xs, 0); TracePrefix(Created, xs, 1);
    assert xs[..2] == xs;
  }

  /** The service with nothing queued, `station` current and session `id` its only player, at the default volume. */
  function Settled(station: RadioStation, playing: bool, id: SessionId): Machine
  {
    Machine(Service(Some(station), playing, InitialVolume, Some(id),
                    map[id := Player(station.url, playing, Some(InitialVolume))], id + 1, true, true, false), [])
  }

  /** The first play of a fresh service: one session, prepared and playing. */
  lemma FirstPlayPrepares(a: RadioStation)
    ensures Trace(Created, [PlayRequest(a), Tick(false), EngineSignal(Prepared(0)), Tick(false)]) == Settled(a, true, 0)
  {
    var xs := [PlayRequest(a), Tick(false), EngineSignal(Prepared(0)), Tick(false)];
    assert xs[..0] == [];
    TracePrefix(Created, xs, 0); TracePrefix(Created, xs, 1);
    TracePrefix(Created, xs, 2); TracePrefix(Created, xs, 3);
    assert xs[..4] == xs;
  }

  /** Playing the playing station again: the toggle posts a pause, which then runs. */
  lemma ReplayPauses(a: RadioStation)
    ensures Trace(Settled(a, true, 0), [PlayRequest(a), Tick(false), Tick(false)]) == Settled(a, false, 0)
  {
    var m := Settled(a, true, 0);
    var xs := [PlayRequest(a), Tick(false), Tick(false)];
    assert xs[..0] == [];
    TracePrefix(m, xs, 0); TracePrefix(m, xs, 1); TracePrefix(m, xs, 2);
    assert xs[..3] == xs;
  }

  /** Playing another station from a paused one: the old session is released, the new one prepares and plays. */
  lemma SwitchPrepares(a: RadioStation, b: RadioStation)
    ensures Trace(Settled(a, false, 0), [PlayRequest(b), Tick(false), EngineSignal(Prepared(1)), Tick(false)])
         == Settled(b, true, 1)
  {
    var m := Settled(a, false, 0);
    var xs := [PlayRequest(b), Tick(false), EngineSignal(Prepared(1)), Tick(false)];
    assert xs[..0] == [];
    TracePrefix(m, xs, 0); TracePrefix(m, xs, 1);
    TracePrefix(m, xs, 2); TracePrefix(m, xs, 3);
    assert xs[..4] == xs;
  }

  /**
   * Play A, it prepares; play A again pauses it; play B releases A's session
   * and, once B prepares, B is playing.
   */
  lemma SwitchStationScenario(a: RadioStation, b: RadioStation)
    ensures var m1 := Trace(Created, [PlayRequest(a), Tick(false), EngineSignal(Prepared(0)), Tick(false)]);
      m1.service.currentStation == Some(a) && m1.service.isPlaying && m1.service.players.Keys == {0}
    ensures var m2 := Trace(Created, [PlayRequest(a), Tick(false), EngineSignal(Prepared(0)), Tick(false),
                                      PlayRequest(a), Tick(false), Tick(false)]);
      m2.service.currentStation == Some(a) && !m2.service.isPlaying && m2.service.players.Keys == {0}
      && m2.queue == []
    ensures var m3 := Trace(Created, [PlayRequest(a), Tick(false), EngineSignal(Prepared(0)), Tick(false),
                                      PlayRequest(a), Tick(false), Tick(false),
                                      PlayRequest(b), Tick(false), EngineSignal(Prepared(1)), Tick(false)]);
      m3.service.currentStation == Some(b) && m3.service.isPlaying && m3.service.players.Keys == {1}
  {
    var x1 := [PlayRequest(a), Tick(false), EngineSignal(Prepared(0)), Tick(false)];
    var x2 := [PlayRequest(a), Tick(false), Tick(false)];
    var x3 := [PlayRequest(b), Tick(false), EngineSignal(Prepared(1)), Tick(false)];
    FirstPlayPrepares(a);
    ReplayPauses(a);
    SwitchPrepares(a, b);
    TraceAppend(Created, x1, x2);
    TraceAppend(Created, x1 + x2, x3);
    assert x1 + x2 == [PlayRequest(a), Tick(false), EngineSignal(Prepared(0)), Tick(false),
                       PlayRequest(a), Tick(false), Tick(false)];
    assert x1 + x2 + x3 == [PlayRequest(a), Tick(false), EngineSignal(Prepared(0)), Tick(false),
                            PlayRequest(a), Tick(false), Tick(false),
                            PlayRequest(b), Tick(false), EngineSignal(Prepared(1)), Tick(false)];
  }
}
