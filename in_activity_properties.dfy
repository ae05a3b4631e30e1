/**
 * What the in-activity player does: the select toggle, immediate `isPlaying`,
 * release before replace, the negating play/pause toggle, the captured
 * prepared volume, the lifecycle hooks, and what teardown leaves behind.
 */
module InActivityProperties {
  import opened RadioTypes
  import opened Engine
  import opened InActivity

  /** Selecting the station already playing pauses the player and clears `isPlaying`; the station and player stay. */
  lemma SelectWhilePlayingPauses(a: Activity, station: RadioStation, setupFails: bool)
    requires IsCurrentUrl(a.currentStation, station) && a.isPlaying
    ensures var r := Execute(a, Select(station), setupFails);
      && !r.isPlaying
      && r.currentStation == a.currentStation && r.volume == a.volume
      && r.mediaPlayer == a.mediaPlayer && r.nextSession == a.nextSession
      && r.players.Keys == a.players.Keys
      && (a.mediaPlayer.Some? && a.mediaPlayer.value in a.players ==> !r.players[a.mediaPlayer.value].running)
  {
  }

  /**
   * Selecting any other station (or the current one while paused) releases the
   * old player, creates one for `station` that will apply the current volume,
   * makes `station` current and sets `isPlaying` at once, even when setup throws.
   */
  lemma SelectStartsAtOnce(a: Activity, station: RadioStation, setupFails: bool)
    requires Consistent(a) && !(IsCurrentUrl(a.currentStation, station) && a.isPlaying)
    ensures var r := Execute(a, Select(station), setupFails);
      && r.currentStation == Some(station) && r.isPlaying && r.volume == a.volume
      && (a.mediaPlayer.Some? ==> a.mediaPlayer.value !in r.players)
      && (!setupFails ==>
            && r.players == map[a.nextSession := Player(station.url, false, None)]
            && r.mediaPlayer == Some(a.nextSession)
            && r.preparedVolume == a.volume)
      && (setupFails ==> r.players == map[] && r.mediaPlayer == a.mediaPlayer)
  {
  }

  /** The play/pause toggle always negates `isPlaying`. */
  lemma ToggleNegates(a: Activity, setupFails: bool)
    ensures Execute(a, Toggle, setupFails).isPlaying == !a.isPlaying
  {
  }

  /** Toggling while playing pauses the player and changes nothing else. */
  lemma ToggleWhilePlayingPauses(a: Activity, setupFails: bool)
    requires a.isPlaying
    ensures Execute(a, Toggle, setupFails) == a.(players := PausePlayer(a.players, a.mediaPlayer), isPlaying := false)
  {
  }

  /** Toggling while paused restarts the current station with a new player. */
  lemma ToggleWhilePausedReloads(a: Activity)
    requires Consistent(a) && !a.isPlaying && a.currentStation.Some?
    ensures var r := Execute(a, Toggle, false);
      && r.isPlaying && r.currentStation == a.currentStation
      && r.players == map[a.nextSession := Player(a.currentStation.value.url, false, None)]
      && r.mediaPlayer == Some(a.nextSession) && r.preparedVolume == a.volume
  {
  }

  /** With no station the toggle still sets `isPlaying`, and touches nothing else. */
  lemma ToggleWithoutStationPlays(a: Activity, setupFails: bool)
    requires !a.isPlaying && a.currentStation.None?
    ensures Execute(a, Toggle, setupFails) == a.(isPlaying := true)
  {
  }

  /** The prepared listener applies the volume captured when its player was created, starts it, and leaves `isPlaying`. */
  lemma PreparedAppliesCapturedVolume(a: Activity, id: SessionId)
    requires id in a.players
    ensures var r := Execute(a, Callback(Prepared(id)), false);
      && r.players == a.players[id := a.players[id].(gain := Some(a.preparedVolume), running := true)]
      && r.isPlaying == a.isPlaying && r.currentStation == a.currentStation && r.volume == a.volume
  {
  }

  /** The error listener only logs: the UI state is left exactly as it was. */
  lemma ErrorLeavesUiState(a: Activity, id: SessionId)
    requires id in a.players
    ensures var r := Execute(a, Callback(Error(id)), false);
      && r.isPlaying == a.isPlaying && r.currentStation == a.currentStation && r.volume == a.volume
      && r.mediaPlayer == a.mediaPlayer && r.players.Keys == a.players.Keys
  {
  }

  /** A volume change updates the state variable at once and posts the player update. */
  lemma VolumeChangeIsImmediate(m: Machine, v: Volume)
    requires !m.activity.quit
    ensures var r := Apply(m, VolumeChanged(v));
      r.activity == m.activity.(volume := v) && r.queue == m.queue + [ApplyVolume(v)]
  {
  }

  /** The posted update hands the new volume to the player, if present. */
  lemma ApplyVolumeReachesPlayer(a: Activity, v: Volume)
    ensures var r := Execute(a, ApplyVolume(v), false);
      && r.players.Keys == a.players.Keys
      && (a.mediaPlayer.Some? && a.mediaPlayer.value in a.players ==> r.players[a.mediaPlayer.value].gain == Some(v))
      && r.isPlaying == a.isPlaying && r.volume == a.volume && r.currentStation == a.currentStation
  {
  }

  /** `onPause` and `onResume` pause or start the player (if present) and leave the UI state alone. */
  lemma LifecycleLeavesUiState(m: Machine)
    ensures var p := Apply(m, LifecyclePause).activity;
      && p.isPlaying == m.activity.isPlaying && p.currentStation == m.activity.currentStation
      && p.players == PausePlayer(m.activity.players, m.activity.mediaPlayer)
    ensures var q := Apply(m, LifecycleResume).activity;
      && q.isPlaying == m.activity.isPlaying && q.currentStation == m.activity.currentStation
      && q.players == StartPlayer(m.activity.players, m.activity.mediaPlayer)
    ensures Apply(m, LifecyclePause).queue == m.queue && Apply(m, LifecycleResume).queue == m.queue
  {
  }

  /** `onDestroy` releases the player and nulls the field. */
  lemma DestroyReleasesPlayer(m: Machine)
    requires Consistent(m.activity)
    ensures var r := Apply(m, LifecycleDestroy).activity;
      r.players == map[] && r.mediaPlayer.None? && r.quit
      && r.currentStation == m.activity.currentStation && r.isPlaying == m.activity.isPlaying
  {
  }

  // ---------------------------------------------------------------------------
  // Whole runs
  // ---------------------------------------------------------------------------

  lemma {:induction false} TraceAppend(m: Machine, xs: seq<Input>, ys: seq<Input>)
    ensures Trace(m, xs + ys) == Trace(Trace(m, xs), ys)
    decreases |xs|
  {
    if xs == [] {
      assert xs + ys == ys;
    } else {
      assert (xs + ys)[0] == xs[0] && (xs + ys)[1..] == xs[1..] + ys;
      TraceAppend(Apply(m, xs[0]), xs[1..], ys);
    }
  }

  lemma TraceSnoc(m: Machine, xs: seq<Input>, i: Input)
    ensures Trace(m, xs + [i]) == Apply(Trace(m, xs), i)
  {
    TraceAppend(m, xs, [i]);
    TraceOne(Trace(m, xs), i);
  }

  lemma TraceOne(m: Machine, i: Input)
    ensures Trace(m, [i]) == Apply(m, i)
  {
    assert [i][1..] == [];
  }

  /** Running one more input of `xs` extends the run by one `Apply`. */
  lemma TracePrefix(m: Machine, xs: seq<Input>, k: nat)
    requires k < |xs|
    ensures Trace(m, xs[..k + 1]) == Apply(Trace(m, xs[..k]), xs[k])
  {
    assert xs[..k + 1] == xs[..k] + [xs[k]];
    TraceSnoc(m, xs[..k], xs[k]);
  }

  /** At most one player session is live after any run from a consistent state. */
  lemma {:induction false} TraceKeepsConsistent(m: Machine, inputs: seq<Input>)
    requires Consistent(m.activity)
    ensures Consistent(Trace(m, inputs).activity)
    decreases |inputs|
  {
    if inputs != [] {
      TraceKeepsConsistent(Apply(m, inputs[0]), inputs[1..]);
    }
  }

  /** The commands that can create a player: a selection, or a toggle while paused. */
  predicate MayCreatePlayer(c: Command)
  {
    c.Select? || c.Toggle?
  }

  predicate NoPendingStart(queue: seq<Command>)
  {
    forall i :: 0 <= i < |queue| ==> !MayCreatePlayer(queue[i])
  }

  /** After `onDestroy` no player becomes live again, unless a selection or toggle was still queued. */
  lemma {:induction false} NoPlayerAfterTeardown(m: Machine, inputs: seq<Input>)
    requires m.activity.quit && m.activity.players == map[] && NoPendingStart(m.queue)
    ensures var r := Trace(m, inputs);
      r.activity.quit && r.activity.players == map[] && NoPendingStart(r.queue)
    decreases |inputs|
  {
    if inputs != [] {
      var m' := Apply(m, inputs[0]);
      if inputs[0].Tick? && m.queue != [] {
        assert !MayCreatePlayer(m.queue[0]);
        assert m'.queue == m.queue[1..];
      } else {
        assert m'.queue == m.queue;
      }
      NoPlayerAfterTeardown(m', inputs[1..]);
    }
  }

  /**
   * A volume change made while the player is preparing is overwritten: the
   * posted update reaches the preparing player first, then its prepared
   * listener applies the volume captured at selection.
   */
  lemma VolumeChangeDuringPrepareIsOverwritten(station: RadioStation, v: Volume)
    requires v != InitialVolume
    ensures var r := Trace(Created, [StationSelected(station), Tick(false), VolumeChanged(v),
                                     EngineSignal(Prepared(0)), Tick(false), Tick(false)]);
      && r.activity.volume == v
      && 0 in r.activity.players
      && r.activity.players[0].gain == Some(InitialVolume)
      && r.activity.players[0].running
  {
    var xs := [StationSelected(station), Tick(false), VolumeChanged(v),
               EngineSignal(Prepared(0)), Tick(false), Tick(false)];
    assert xs[..0] == [];
    TracePrefix(Created, xs, 0); TracePrefix(Created, xs, 1); TracePrefix(Created, xs, 2);
    TracePrefix(Created, xs, 3); TracePrefix(Created, xs, 4); TracePrefix(Created, xs, 5);
    assert xs[..6] == xs;
  }

  /**
   * `onResume` restarts a player the user had paused with the toggle: the
   * player runs again while `isPlaying` stays false.
   */
  lemma ResumeRestartsUserPausedPlayer(m: Machine)
    requires m.activity.isPlaying && m.queue == [Toggle]
    requires m.activity.mediaPlayer.Some? && m.activity.mediaPlayer.value in m.activity.players
    ensures var r := Trace(m, [Tick(false), LifecyclePause, LifecycleResume]);
      && !r.activity.isPlaying
      && r.activity.players[m.activity.mediaPlayer.value].running
  {
    var xs := [Tick(false), LifecyclePause, LifecycleResume];
    assert xs[..0] == [];
    TracePrefix(m, xs, 0); TracePrefix(m, xs, 1); TracePrefix(m, xs, 2);
    assert xs[..3] == xs;
  }
}
