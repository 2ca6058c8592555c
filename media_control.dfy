/**
 * The plugin object and the host presentation it is attached to. The
 * plugin keeps the queue; the host answers whether it is in slide mode and
 * which media the current slide holds, and owns the media elements
 * themselves (their positions and the `play` calls made on them).
 */
module ShowerMediaControl {
  import opened Wrappers
  import opened Selector
  import opened MediaQueue

  /** The host presentation, reduced to what the plugin reads and changes. */
  class Shower {
    /** `container.isSlideMode()`. */
    var slideMode: bool
    /** The current slide's elements matching the plugin's selector, in document order. */
    var slideMedia: seq<MediaId>
    /** The `currentTime` of every media element on the page. */
    var positions: map<MediaId, real>
    /** The elements `play()` has been called on, oldest first. */
    var playLog: seq<MediaId>

    constructor (slideMode: bool, slideMedia: seq<MediaId>, positions: map<MediaId, real>)
      ensures this.slideMode == slideMode && this.slideMedia == slideMedia
      ensures this.positions == positions && playLog == []
    {
      this.slideMode := slideMode;
      this.slideMedia := slideMedia;
      this.positions := positions;
      playLog := [];
    }
  }

  /** The plugin: sequences a slide's media, one per `next` event. */
  class MediaControl {
    /** The selector slides are queried with. */
    const mediaSelector: string
    /** The media still to be played, front first. */
    var mediaElements: seq<MediaId>
    /** The host presentation; null once the plugin is destroyed. */
    var shower: Shower?

    /** The plugin's queue together with the host's media, as a value. */
    ghost function Snapshot(): State
      requires shower != null
      reads this, shower
    {
      State(mediaElements, shower.positions, shower.playLog)
    }

    constructor (shower: Shower, options: Option<Options>)
      ensures mediaSelector == MediaSelector(options)
      ensures mediaElements == [] && this.shower == shower
    {
      mediaSelector := MediaSelector(options);
      mediaElements := [];
      this.shower := shower;
    }

    /** Releases the queue and the host; no handler may run afterwards. */
    method Destroy()
      modifies this
      ensures mediaElements == [] && shower == null
    {
      mediaElements := [];
      shower := null;
    }

    /** The `activate` handler. */
    method OnSlideActivate()
      requires shower != null
      modifies this`mediaElements, shower`positions
      ensures Snapshot() == Activate(old(Snapshot()), shower.slideMode, shower.slideMedia)
    {
      var host := shower;
      var slideMode := host.slideMode;
      var mediaNodes := host.slideMedia;
      if slideMode {
        if |mediaNodes| > 0 {
          for i := 0 to |mediaNodes|
            invariant mediaElements == old(mediaElements) + mediaNodes[..i]
            invariant host.positions == Rewound(old(host.positions), mediaNodes[..i])
          {
            var media := mediaNodes[i];
            host.positions := host.positions[media := 0.0];
            mediaElements := mediaElements + [media];
            assert mediaNodes[..i + 1][..i] == mediaNodes[..i];
          }
          assert mediaNodes[..|mediaNodes|] == mediaNodes;
        } else {
          mediaElements := [];
        }
      }
    }

    /** The `next` handler; `cancelled` says whether it called `preventDefault()` on the event. */
    method OnNext() returns (cancelled: bool)
      requires shower != null
      modifies this`mediaElements, shower`playLog
      ensures var step := Next(old(Snapshot()), shower.slideMode);
        Snapshot() == step.after && cancelled == step.cancelled
    {
      var slideMode := shower.slideMode;
      var hasUnplayedMedia := |mediaElements| > 0;
      cancelled := false;
      if slideMode && hasUnplayedMedia {
        cancelled := true;
        PlayNextMedia();
      }
    }

    /** Takes the front of the queue and calls `play` on it. */
    method PlayNextMedia()
      requires shower != null && mediaElements != []
      modifies this`mediaElements, shower`playLog
      ensures Snapshot() == PlayFront(old(Snapshot()))
    {
      var media := mediaElements[0];
      mediaElements := mediaElements[1..];
      shower.playLog := shower.playLog + [media];
    }
  }
}
