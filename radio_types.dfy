/**
 * Values shared by the playback service, the view-model bridge and the
 * in-activity player: the station record and the published playback state.
 */
module RadioTypes {

  /** Kotlin's nullable `T?`. */
  datatype Option<+T> = None | Some(value: T)

  /**
   * A volume level. The source only stores and forwards the Float it is
   * given and never clamps or computes with it, so an unbounded real stands
   * for it.
   */
  type Volume = real

  /** The volume every state holder starts with (`0.5f`). */
  const InitialVolume: Volume := 0.5

  /** `data class RadioStation(name, url, imageUrl)`; identity for selection is URL equality. */
  datatype RadioStation = RadioStation(name: string, url: string, imageUrl: string)

  /** The published snapshot `RadioState(currentStation, isPlaying, volume)`. */
  datatype RadioState = RadioState(currentStation: Option<RadioStation>, isPlaying: bool, volume: Volume)

  /** The state a fresh view-model mirrors before it hears from the service. */
  const InitialRadioState: RadioState := RadioState(None, false, InitialVolume)

  /** `current?.url == station.url`: a null current station matches nothing. */
  predicate IsCurrentUrl(current: Option<RadioStation>, station: RadioStation)
    ensures current.None? ==> !IsCurrentUrl(current, station)
    ensures current.Some? ==> (IsCurrentUrl(current, station) <==> current.value.url == station.url)
  {
    current.Some? && current.value.url == station.url
  }
}
