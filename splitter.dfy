/**
 * The basic stem-splitter page: the user uploads one audio file, a simulated
 * split reuses that file for every stem, and five players (the original and
 * the four stems) are shown, each with a play/pause button, a volume slider
 * in 0..100 and an end-of-track callback.
 *
 * Every player keeps the same three values, and the same three handlers drive
 * it; here that per-player logic is written once, as step functions on a
 * `Track` record, and the page keeps one `Track` per `TrackId` in a map.
 */
module Splitter {
  import opened Wrappers

  /** The five players on the page. */
  datatype TrackId = Original | Vocals | Drums | Bass | Others

  /** One player's state: its slider value and the two flags the page keeps side by side. */
  datatype Track = Track(volume: int, isPlaying: bool, isPaused: bool)

  /** Every player starts silent and paused. */
  const Silent: Track := Track(0, false, true)

  /** The volume a silent track snaps to when play is pressed. */
  const DefaultVolume: int := 50

  /** The range of the volume slider. */
  predicate InRange(v: int) {
    0 <= v <= 100
  }

  /** The volume is on the slider's scale and the two flags are each other's negation. */
  predicate Coherent(t: Track) {
    InRange(t.volume) && t.isPlaying == !t.isPaused
  }

  /** Coherent, and a playing track is never silent. */
  predicate Consistent(t: Track) {
    Coherent(t) && (t.isPlaying ==> t.volume > 0)
  }

  /**
   * The play/pause button. `hasRef` says whether the player's audio element
   * is mounted; without it the handler does nothing.
   */
  function PlayPause(t: Track, hasRef: bool): (r: Track)
    ensures !hasRef ==> r == t
    ensures hasRef && t.isPaused ==>
      r.isPlaying && !r.isPaused && r.volume == (if t.volume == 0 then DefaultVolume else t.volume)
    ensures hasRef && !t.isPaused ==> !r.isPlaying && r.isPaused && r.volume == t.volume
    ensures hasRef && Coherent(t) ==> Consistent(r)
    ensures Consistent(t) ==> Consistent(r)
  {
    if !hasRef then t
    else if t.isPaused then
      Track(if t.volume == 0 then DefaultVolume else t.volume, true, false)
    else
      t.(isPlaying := false, isPaused := true)
  }

  /**
   * The volume slider. The new value is stored in every case; with the audio
   * element mounted, silence pauses the track and any other value plays it.
   */
  function VolumeChange(t: Track, hasRef: bool, value: int): (r: Track)
    ensures r.volume == value
    ensures hasRef ==> (r.isPlaying <==> value != 0) && r.isPaused == !r.isPlaying
    ensures !hasRef ==> r.isPlaying == t.isPlaying && r.isPaused == t.isPaused
    ensures hasRef && InRange(value) ==> Consistent(r)
    ensures InRange(value) && Coherent(t) ==> Coherent(r)
  {
    if !hasRef then t.(volume := value)
    else if value == 0 then Track(value, false, true)
    else Track(value, true, false)
  }

  /** The audio element's end-of-track callback: paused and silenced, whatever came before. */
  function Ended(t: Track): (r: Track)
    ensures !r.isPlaying && r.isPaused && r.volume == 0
    ensures Consistent(r)
  {
    t.(isPlaying := false, isPaused := true, volume := 0)
  }

  // ---------------------------------------------------------------------------
  // All five players together, driven by a sequence of user and media events
  // (with every audio element mounted).

  datatype Event = Toggle(id: TrackId) | Slide(id: TrackId, value: int) | Finish(id: TrackId)

  /** A slider event carries a value the range input can produce. */
  predicate FromSlider(e: Event) {
    e.Slide? ==> InRange(e.value)
  }

  /** What one event does to the track it targets. */
  function Step(t: Track, e: Event): Track {
    match e
    case Toggle(_) => PlayPause(t, true)
    case Slide(_, v) => VolumeChange(t, true, v)
    case Finish(_) => Ended(t)
  }

  type Board = map<TrackId, Track>

  /** Every player has a state. */
  predicate Complete(b: Board) {
    forall id: TrackId :: id in b
  }

  predicate AllConsistent(b: Board)
    requires Complete(b)
  {
    forall id: TrackId :: Consistent(b[id])
  }

  const InitialBoard: Board :=
    map[Original := Silent, Vocals := Silent, Drums := Silent, Bass := Silent, Others := Silent]

  lemma InitialBoardComplete()
    ensures Complete(InitialBoard) && AllConsistent(InitialBoard)
  {
    forall id: TrackId ensures id in InitialBoard {
      match id
      case Original =>
      case Vocals =>
      case Drums =>
      case Bass =>
      case Others =>
    }
  }

  /** One event on the page: only the targeted player changes. */
  function Apply(b: Board, e: Event): (r: Board)
    requires Complete(b)
    ensures Complete(r)
    ensures r[e.id] == Step(b[e.id], e)
    ensures forall k: TrackId :: k != e.id ==> r[k] == b[k]
  {
    b[e.id := Step(b[e.id], e)]
  }

  /** A whole session of events, in order. */
  function Run(b: Board, events: seq<Event>): (r: Board)
    requires Complete(b)
    ensures Complete(r)
    decreases |events|
  {
    if events == [] then b else Run(Apply(b, events[0]), events[1..])
  }

  /** One player on its own, fed only its own events. */
  function TrackRun(t: Track, events: seq<Event>): Track
    decreases |events|
  {
    if events == [] then t else TrackRun(Step(t, events[0]), events[1..])
  }

  /** The events of a session that target player `k`, in order. */
  function EventsFor(events: seq<Event>, k: TrackId): seq<Event>
    decreases |events|
  {
    if events == [] then []
    else if events[0].id == k then [events[0]] + EventsFor(events[1..], k)
    else EventsFor(events[1..], k)
  }

  /**
   * Independence: a player's state after a session depends only on its own
   * start state and its own events, whatever happens to the other players.
   */
  lemma {:induction false} RunProjection(b: Board, events: seq<Event>, k: TrackId)
    requires Complete(b)
    ensures Run(b, events)[k] == TrackRun(b[k], EventsFor(events, k))
    decreases |events|
  {
    if events != [] {
      var e := events[0];
      RunProjection(Apply(b, e), events[1..], k);
    }
  }

  lemma {:induction false} EventsForNone(events: seq<Event>, k: TrackId)
    requires forall i :: 0 <= i < |events| ==> events[i].id != k
    ensures EventsFor(events, k) == []
    decreases |events|
  {
    if events != [] {
      EventsForNone(events[1..], k);
    }
  }

  /** A session that never touches player `k` leaves it exactly as it was. */
  lemma {:induction false} RunLeavesOthersAlone(b: Board, events: seq<Event>, k: TrackId)
    requires Complete(b)
    requires forall i :: 0 <= i < |events| ==> events[i].id != k
    ensures Run(b, events)[k] == b[k]
  {
    RunProjection(b, events, k);
    EventsForNone(events, k);
  }

  /** Every handler keeps "playing iff not paused" and "playing implies audible". */
  lemma {:induction false} RunKeepsConsistent(b: Board, events: seq<Event>)
    requires Complete(b) && AllConsistent(b)
    requires forall i :: 0 <= i < |events| ==> FromSlider(events[i])
    ensures AllConsistent(Run(b, events))
    decreases |events|
  {
    if events != [] {
      var b' := Apply(b, events[0]);
      assert FromSlider(events[0]);
      assert forall id: TrackId :: Consistent(b'[id]);
      RunKeepsConsistent(b', events[1..]);
    }
  }

  /** From the page's initial state, no session reaches a playing silent track. */
  lemma ReachableConsistent(events: seq<Event>)
    requires forall i :: 0 <= i < |events| ==> FromSlider(events[i])
    ensures Complete(InitialBoard)
    ensures var r := Run(InitialBoard, events); forall id: TrackId :: r[id].isPlaying == !r[id].isPaused
    ensures var r := Run(InitialBoard, events); forall id: TrackId :: r[id].isPlaying ==> r[id].volume > 0
  {
    InitialBoardComplete();
    RunKeepsConsistent(InitialBoard, events);
  }

  /**
   * With an audio element missing, the slider alone can reach the state the
   * invariant forbids: it stores 0 but leaves the track playing.
   */
  lemma UnmountedSliderCanSilenceAPlayingTrack()
    ensures var r := VolumeChange(Track(70, true, false), false, 0); r.isPlaying && r.volume == 0
  {
  }

  // ---------------------------------------------------------------------------
  // The page component itself.

  /** The four stem URLs the split produces (`null` before any split). */
  datatype SplitTracks = SplitTracks(vocals: Option<string>, drums: Option<string>,
                                     bass: Option<string>, others: Option<string>)

  const NoSplit: SplitTracks := SplitTracks(None, None, None, None)

  class BasicSplitter {
    var uploaded: bool
    var processing: bool
    var originalAudioURL: Option<string>
    var splitTracks: SplitTracks
    var tracks: Board

    ghost predicate Valid()
      reads this
    {
      Complete(tracks) && (forall id: TrackId :: Coherent(tracks[id]))
      && (uploaded ==> originalAudioURL.Some?)
    }

    /** The URL each player's audio element plays; once the simulated split has run, every player plays the upload. */
    function SourceOf(id: TrackId): (r: Option<string>)
      reads this
      ensures id == Original ==> r == originalAudioURL
      ensures splitTracks == SplitTracks(originalAudioURL, originalAudioURL, originalAudioURL, originalAudioURL)
              ==> r == originalAudioURL
    {
      match id
      case Original => originalAudioURL
      case Vocals => splitTracks.vocals
      case Drums => splitTracks.drums
      case Bass => splitTracks.bass
      case Others => splitTracks.others
    }

    /** The players are rendered once a split has finished. */
    predicate PlayersShown()
      reads this
      ensures PlayersShown() ==> uploaded && !processing && SourceOf(Vocals).Some?
    {
      uploaded && !processing && splitTracks.vocals.Some?
    }

    constructor ()
      ensures Valid() && AllConsistent(tracks)
      ensures tracks == InitialBoard
      ensures !uploaded && !processing && originalAudioURL == None && splitTracks == NoSplit
    {
      uploaded, processing := false, false;
      originalAudioURL := None;
      splitTracks := NoSplit;
      tracks := InitialBoard;
      InitialBoardComplete();
    }

    /**
     * The file input's change handler. `objectURL` is the URL the browser
     * creates for the first selected file, or None when no file was selected.
     */
    method HandleUpload(objectURL: Option<string>)
      requires Valid()
      modifies this
      ensures Valid()
      ensures objectURL == None ==> unchanged(this)
      ensures objectURL != None ==> originalAudioURL == objectURL && uploaded
      ensures processing == old(processing) && splitTracks == old(splitTracks) && tracks == old(tracks)
    {
      if objectURL.Some? {
        var url := objectURL.value;
        originalAudioURL := Some(url);
        uploaded := true;
      }
    }

    /**
     * The "Start Splitting" button, together with the timer callback it
     * schedules: every stem becomes the uploaded file's URL and processing ends.
     */
    method HandleProcess()
      requires Valid()
      modifies this
      ensures Valid()
      ensures splitTracks == SplitTracks(originalAudioURL, originalAudioURL, originalAudioURL, originalAudioURL)
      ensures forall id: TrackId :: SourceOf(id) == old(originalAudioURL)
      ensures !processing
      ensures PlayersShown() <==> uploaded
      ensures uploaded == old(uploaded) && originalAudioURL == old(originalAudioURL) && tracks == old(tracks)
    {
      processing := true;
      var url := originalAudioURL;
      // the timer fires
      splitTracks := SplitTracks(url, url, url, url);
      processing := false;
    }

    method HandlePlayPause(id: TrackId, hasRef: bool)
      requires Valid()
      modifies this
      ensures Valid()
      ensures tracks == old(tracks)[id := PlayPause(old(tracks)[id], hasRef)]
      ensures old(AllConsistent(tracks)) ==> AllConsistent(tracks)
      ensures uploaded == old(uploaded) && processing == old(processing)
      ensures originalAudioURL == old(originalAudioURL) && splitTracks == old(splitTracks)
    {
      var isPaused, volume := tracks[id].isPaused, tracks[id].volume;
      if hasRef {
        if isPaused {
          tracks := tracks[id := tracks[id].(isPlaying := true)];
          tracks := tracks[id := tracks[id].(isPaused := false)];
          if volume == 0 {
            tracks := tracks[id := tracks[id].(volume := DefaultVolume)];
          }
        } else {
          tracks := tracks[id := tracks[id].(isPlaying := false)];
          tracks := tracks[id := tracks[id].(isPaused := true)];
        }
      }
    }

    /** The volume slider's change handler; the range input only produces 0..100. */
    method HandleVolumeChange(id: TrackId, hasRef: bool, value: int)
      requires Valid() && InRange(value)
      modifies this
      ensures Valid()
      ensures tracks == old(tracks)[id := VolumeChange(old(tracks)[id], hasRef, value)]
      ensures hasRef && old(AllConsistent(tracks)) ==> AllConsistent(tracks)
      ensures uploaded == old(uploaded) && processing == old(processing)
      ensures originalAudioURL == old(originalAudioURL) && splitTracks == old(splitTracks)
    {
      tracks := tracks[id := tracks[id].(volume := value)];
      if hasRef {
        if value == 0 {
          tracks := tracks[id := tracks[id].(isPlaying := false)];
          tracks := tracks[id := tracks[id].(isPaused := true)];
        } else {
          tracks := tracks[id := tracks[id].(isPlaying := true)];
          tracks := tracks[id := tracks[id].(isPaused := false)];
        }
      }
    }

    /** The audio element's `onEnded` callback. */
    method HandleEnded(id: TrackId)
      requires Valid()
      modifies this
      ensures Valid()
      ensures tracks == old(tracks)[id := Ended(old(tracks)[id])]
      ensures old(AllConsistent(tracks)) ==> AllConsistent(tracks)
      ensures uploaded == old(uploaded) && processing == old(processing)
      ensures originalAudioURL == old(originalAudioURL) && splitTracks == old(splitTracks)
    {
      tracks := tracks[id := tracks[id].(isPlaying := false)];
      tracks := tracks[id := tracks[id].(isPaused := true)];
      tracks := tracks[id := tracks[id].(volume := 0)];
    }
  }

  /** A client: what a caller can conclude from the handlers' contracts alone. */
  method UploadSplitAndPlay(url: string)
  {
    var page := new BasicSplitter();
    page.HandleUpload(None);
    assert !page.uploaded;
    page.HandleUpload(Some(url));
    page.HandleProcess();
    assert page.PlayersShown() && page.SourceOf(Drums) == Some(url);
    page.HandlePlayPause(Vocals, true);
    assert page.tracks[Vocals] == Track(50, true, false);
    assert page.tracks[Drums] == Silent;
    page.HandleVolumeChange(Vocals, true, 0);
    assert page.tracks[Vocals] == Silent;
    page.HandleVolumeChange(Bass, true, 30);
    page.HandleEnded(Bass);
    assert page.tracks[Bass] == Silent && AllConsistent(page.tracks);
  }
}
