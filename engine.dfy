/**
 * The platform media player, seen from its owner. A player instance is an
 * opaque session id; the live (created and not yet released) sessions are the
 * keys of a map that records, per session, the stream it was given, whether it
 * is producing sound and the gain last applied to it. Decoding, buffering and
 * the platform player's own state machine are not modelled.
 */
module Engine {
  import opened RadioTypes

  type SessionId = nat

  /** One live player: its data source, whether it is started, and the last `setVolume` it received (None: platform default). */
  datatype Player = Player(url: string, running: bool, gain: Option<Volume>)

  type Players = map<SessionId, Player>

  /** The callbacks a player reports: prepared, error and completion, tagged with the session that raised them. */
  datatype EngineEvent =
    | Prepared(session: SessionId)
    | Error(session: SessionId)
    | Completion(session: SessionId)

  /** The sessions an owner's `mediaPlayer` field can name (empty when it is null). */
  function Handled(handle: Option<SessionId>): set<SessionId>
  {
    if handle.Some? then {handle.value} else {}
  }

  /** No session is live except the one the owner's `mediaPlayer` field refers to. */
  predicate AtMostOneLive(players: Players, handle: Option<SessionId>)
  {
    players.Keys <= Handled(handle)
  }

  /** `mediaPlayer?.release()`: the referenced session, if any, stops being live; every other session is untouched. */
  function ReleasePlayer(players: Players, handle: Option<SessionId>): (r: Players)
    ensures r.Keys == players.Keys - Handled(handle)
    ensures forall id :: id in r ==> r[id] == players[id]
  {
    if handle.Some? then players - {handle.value} else players
  }

  /** Sets the `running` flag of the referenced session when it is live. */
  function SetRunning(players: Players, handle: Option<SessionId>, running: bool): (r: Players)
    ensures r.Keys == players.Keys
    ensures forall id :: id in r && Some(id) != handle ==> r[id] == players[id]
    ensures handle.Some? && handle.value in players ==>
      r[handle.value] == players[handle.value].(running := running)
  {
    if handle.Some? && handle.value in players
    then players[handle.value := players[handle.value].(running := running)]
    else players
  }

  /** `mediaPlayer?.pause()` */
  function PausePlayer(players: Players, handle: Option<SessionId>): (r: Players)
    ensures r.Keys == players.Keys
    ensures forall id :: id in r && Some(id) != handle ==> r[id] == players[id]
    ensures handle.Some? && handle.value in players ==>
      && !r[handle.value].running
      && r[handle.value].url == players[handle.value].url
      && r[handle.value].gain == players[handle.value].gain
  {
    SetRunning(players, handle, false)
  }

  /** `mediaPlayer?.start()` */
  function StartPlayer(players: Players, handle: Option<SessionId>): (r: Players)
    ensures r.Keys == players.Keys
    ensures forall id :: id in r && Some(id) != handle ==> r[id] == players[id]
    ensures handle.Some? && handle.value in players ==>
      && r[handle.value].running
      && r[handle.value].url == players[handle.value].url
      && r[handle.value].gain == players[handle.value].gain
  {
    SetRunning(players, handle, true)
  }

  /** `mediaPlayer?.setVolume(v, v)`: the referenced live session records the gain; nothing else changes. */
  function SetPlayerVolume(players: Players, handle: Option<SessionId>, v: Volume): (r: Players)
    ensures r.Keys == players.Keys
    ensures forall id :: id in r && Some(id) != handle ==> r[id] == players[id]
    ensures handle.Some? && handle.value in players ==>
      r[handle.value] == players[handle.value].(gain := Some(v))
  {
    if handle.Some? && handle.value in players
    then players[handle.value := players[handle.value].(gain := Some(v))]
    else players
  }

  /** `MediaPlayer().apply { setDataSource(url); prepareAsync() }`: a new session, preparing, silent, at default gain. */
  function CreatePlayer(players: Players, id: SessionId, url: string): (r: Players)
    ensures r.Keys == players.Keys + {id}
    ensures r[id] == Player(url, false, None)
    ensures forall k :: k in players && k != id ==> r[k] == players[k]
  {
    players[id := Player(url, false, None)]
  }

  /** Releasing the owner's player before creating the next keeps at most one session live. */
  lemma ReleaseThenCreateLeavesOne(players: Players, handle: Option<SessionId>, id: SessionId, url: string)
    requires AtMostOneLive(players, handle)
    requires id !in players
    ensures AtMostOneLive(CreatePlayer(ReleasePlayer(players, handle), id, url), Some(id))
    ensures CreatePlayer(ReleasePlayer(players, handle), id, url).Keys == {id}
  {
  }
}
