/** The browser's media objects as the capture controls see them: recorded
    audio chunks, the tracks of a live stream, and the stream itself. */
module Media {

  /** A recorded audio chunk (a `Blob`): opaque bytes whose count is its `size`. */
  datatype Blob = Blob(bytes: seq<bv8>) {
    function Size(): nat { |bytes| }
  }

  /** A track of a media stream; `live` until someone stops it. */
  class Track {
    var live: bool

    constructor ()
      ensures live
    {
      live := true;
    }

    /** `track.stop()`: ends the track; stopping an ended track changes nothing. */
    method Stop()
      modifies this
      ensures !live
    {
      live := false;
    }
  }

  /** A live media stream; its track list is fixed when the platform hands it out. */
  class MediaStream {
    const tracks: seq<Track>

    constructor (tracks: seq<Track>)
      ensures this.tracks == tracks
    {
      this.tracks := tracks;
    }

    /** The objects that stopping this stream's tracks may change. */
    function TrackSet(): (ts: set<Track>)
      ensures forall i :: 0 <= i < |tracks| ==> tracks[i] in ts
    {
      set t | t in tracks
    }
  }
}
