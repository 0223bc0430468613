/**
 * The static per-track table of the player and the values derived from the
 * selected track: the next-track rule of the shuffle button, the tonearm
 * position and angle, and the icon of the play/stop button.
 *
 * The selected track is `null` or one of the keys 1, 2, 3 of the table; the
 * model writes `null` as 0.
 */
module Tracks {

  datatype Option<+T> = None | Some(value: T)

  /** A selected track, 0 standing for "no track". */
  type Track = t: int | 0 <= t <= 3

  /** A key of the track table. */
  type TrackId = t: int | 1 <= t <= 3 witness 1

  const NoTrack: Track := 0

  /** One entry of the track table. */
  datatype TrackConfig = TrackConfig(
    title: string,
    audio: string,
    video: string,
    tonearmTop: real,
    tonearmRotation: real)

  /** Tonearm position and angle used when no track is selected. */
  const RestTonearmTop: real := 256.75
  const RestTonearmRotation: real := 0.0

  /** The track table, entry by entry. */
  function Config(id: TrackId): (c: TrackConfig)
    ensures c.audio != [] && c.video != []
  {
    match id
    case 1 => TrackConfig("Am I Dreaming", "/audio/track1.mp3", "/video/track1.mp4", 256.75, 0.0)
    case 2 => TrackConfig("Space Song", "/audio/track2.mp3", "/video/track2.mp4", 264.75, -2.61)
    case 3 => TrackConfig("Succession theme", "/audio/track3.mp3", "/video/track3.mp4", 268.75, -7.9)
  }

  /** Indexing the table with any key: only 1, 2 and 3 have an entry. */
  function Lookup(key: int): (r: Option<TrackConfig>)
    ensures r.Some? <==> 1 <= key <= 3
    ensures 1 <= key <= 3 ==> r == Some(Config(key))
  {
    if 1 <= key <= 3 then Some(Config(key)) else None
  }

  /** The track the shuffle button selects: none counts as 0, and 3 wraps to 1. */
  function NextTrack(track: Track): (r: TrackId)
    ensures r != track
    ensures r == 1 <==> track == NoTrack || track == 3
    ensures track != NoTrack && track != 3 ==> r == track + 1
    ensures Lookup(r).Some?
  {
    var current := if track == NoTrack then 0 else track;
    if current == 3 then 1 else current + 1
  }

  /** Three shuffles bring a selected track back to itself. */
  lemma NextTrackPeriod(t: TrackId)
    ensures NextTrack(NextTrack(NextTrack(t))) == t
  {
  }

  /** From no track, three shuffles visit every entry of the table. */
  lemma NextTrackVisitsAll()
    ensures {NextTrack(NoTrack), NextTrack(NextTrack(NoTrack)), NextTrack(NextTrack(NextTrack(NoTrack)))} == {1, 2, 3}
  {
  }

  /** Vertical position of the tonearm for the selected track. */
  function TonearmTop(track: Track): (top: real)
    ensures track != NoTrack ==> top == Config(track).tonearmTop
    ensures track == NoTrack ==> top == RestTonearmTop
  {
    match Lookup(track)
    case Some(c) => c.tonearmTop
    case None => RestTonearmTop
  }

  /** Angle of the tonearm, in degrees, for the selected track. */
  function TonearmRotation(track: Track): (angle: real)
    ensures track != NoTrack ==> angle == Config(track).tonearmRotation
    ensures track == NoTrack ==> angle == RestTonearmRotation
  {
    match Lookup(track)
    case Some(c) => c.tonearmRotation
    case None => RestTonearmRotation
  }

  /** With no track selected the tonearm rests where track 1 puts it. */
  lemma RestIsTrackOne()
    ensures TonearmTop(NoTrack) == TonearmTop(1)
    ensures TonearmRotation(NoTrack) == TonearmRotation(1)
  {
  }

  /** A later track moves the tonearm further down and turns it further. */
  lemma TonearmMovesInward(a: TrackId, b: TrackId)
    requires a < b
    ensures TonearmTop(a) < TonearmTop(b)
    ensures TonearmRotation(a) > TonearmRotation(b)
  {
  }

  /** The icons the play button component can draw. */
  datatype Icon = Play | Stop | Shuffle

  /** The first button shows "stop" while playing and "play" otherwise. */
  function PlayStopIcon(playing: bool): (icon: Icon)
    ensures icon == Stop <==> playing
    ensures icon == Play <==> !playing
  {
    if playing then Stop else Play
  }
}
