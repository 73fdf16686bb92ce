/** `transFormTimeLine`: turns a configuration and a device pixel ratio into the layout
    the strip renderer draws from. Besides returning the layout it overwrites the
    configuration's own segment list with the filtered one. */
module Transform {
  import opened Types
  import opened Segments
  import opened Geometry

  /** The list placed in the layout: the filtered list, reversed when `reverse` is set. */
  function Ordered(videos: seq<Video>, reverse: bool): (r: seq<Video>)
    ensures multiset(r) == multiset(videos)
    ensures |r| == |videos|
    ensures forall i :: 0 <= i < |r| ==> r[i] == videos[if reverse then |videos| - 1 - i else i]
  {
    ReversedPermutes(videos);
    if reverse then Reversed(videos) else videos
  }

  method TransFormTimeLine(timeLine: TimeLine, devicePixelRatio: real) returns (info: TimeLineInfo)
    modifies timeLine`videos
    // the caller's list is replaced by the filtered one, never by the reversed one
    ensures timeLine.videos == Retained(old(timeLine.videos))
    ensures info.points == StripPoints(timeLine.position, timeLine.width, timeLine.height,
                                       timeLine.size, devicePixelRatio)
    ensures info.videos == Ordered(timeLine.videos, timeLine.reverse)
    ensures multiset(info.videos) == multiset(timeLine.videos)
    ensures info.totalTime == LabelledTime(timeLine.videos) == LabelledTime(info.videos)
    ensures info.size == timeLine.size * devicePixelRatio
    ensures info.fontSize == timeLine.fontSize * devicePixelRatio
    ensures info.width == timeLine.width * devicePixelRatio
    ensures info.height == timeLine.height * devicePixelRatio
    ensures info.linePadding == timeLine.linePadding * devicePixelRatio
    ensures info.lineWidth == timeLine.lineWidth * devicePixelRatio
    ensures info.name == timeLine.name && info.magicKey == timeLine.magicKey
    ensures info.devicePixelRatio == timeLine.devicePixelRatio
    ensures info.start == timeLine.start && info.end == timeLine.end
    ensures info.position == timeLine.position && info.reverse == timeLine.reverse
  {
    var points := StripCorners(timeLine.position, timeLine.width, timeLine.height,
                               timeLine.size, devicePixelRatio);
    timeLine.videos := Retained(timeLine.videos);
    var totalTime := TotalTime(timeLine.videos);
    var finalVideos := timeLine.videos;
    var videos := if timeLine.reverse then Reversed(finalVideos) else finalVideos;
    LabelledTimeReversed(finalVideos);
    info := TimeLineInfo(
      timeLine.name, timeLine.magicKey, timeLine.devicePixelRatio, timeLine.start, timeLine.end,
      timeLine.position, timeLine.reverse,
      timeLine.size * devicePixelRatio,
      timeLine.fontSize * devicePixelRatio,
      timeLine.width * devicePixelRatio,
      timeLine.height * devicePixelRatio,
      timeLine.linePadding * devicePixelRatio,
      timeLine.lineWidth * devicePixelRatio,
      videos, points, totalTime);
  }

  /** The two orders are exact reverses of each other, and the total time is the same
      for both. */
  lemma ReverseLaw(videos: seq<Video>)
    ensures Ordered(videos, true) == Reversed(Ordered(videos, false))
    ensures Ordered(videos, false) == Reversed(Ordered(videos, true))
    ensures LabelledTime(Ordered(videos, true)) == LabelledTime(Ordered(videos, false))
  {
    ReversedInvolutive(videos);
    LabelledTimeReversed(videos);
  }

  /** The segment list of the built-in default configuration. */
  const DefaultVideos: seq<Video> := [
    Video(Some("describe each segment and its length"), Some(50.0)),
    Video(Some("set the thumbnail size, colours and position"), Some(60.0)),
    Video(Some("click a thumbnail to preview and download"), Some(60.0)),
    Video(Some("add the timeline to the editor"), Some(80.0)),
    Video(Some("set keyframes in the editor"), Some(40.0)),
    Video(Some("done"), Some(30.0))]

  /** The default configuration (1920 by 1080, a 40-pixel strip at the bottom) at ratio 1:
      the strip starts 40 pixels above the bottom and its far corner is the canvas
      doubled. */
  lemma DefaultCorners()
    ensures StripPoints("bottom", 1920.0, 1080.0, 40.0, 1.0)
         == Rectangle(Point(0.0, 1040.0), Point(3840.0, 2160.0))
  {
  }

  /** The six default segments all pass the filter. */
  lemma DefaultFiltered()
    ensures Retained(DefaultVideos) == DefaultVideos
  {
    RetainedOfDefined(DefaultVideos);
  }

  /** The six default segments last 320 seconds. */
  lemma DefaultTotal()
    ensures LabelledTime(DefaultVideos) == 320.0
  {
    var d := DefaultVideos;
    assert LabelledTime(d[..1]) == 50.0 by { assert d[..1][..0] == []; }
    assert LabelledTime(d[..2]) == 110.0 by { assert d[..2][..1] == d[..1]; }
    assert LabelledTime(d[..3]) == 170.0 by { assert d[..3][..2] == d[..2]; }
    assert LabelledTime(d[..4]) == 250.0 by { assert d[..4][..3] == d[..3]; }
    assert LabelledTime(d[..5]) == 290.0 by { assert d[..5][..4] == d[..4]; }
    assert d[..|d| - 1] == d[..5];
  }

  /** A segment without a label is dropped; one with an empty label is kept but adds
      nothing to the total. */
  lemma FilterExamples()
    ensures Retained([Video(None, Some(5.0))]) == []
    ensures Retained([Video(Some(""), Some(5.0))]) == [Video(Some(""), Some(5.0))]
    ensures LabelledTime([Video(Some(""), Some(5.0))]) == 0.0
  {
  }
}
