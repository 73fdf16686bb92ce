/** The entities the timeline layout transform reads and produces: the user-authored
    configuration (a mutable object owned by the caller), one video segment, the colour
    sets, and the derived layout record. Numbers are exact reals: the transform only adds,
    subtracts and multiplies them. */
module Types {

  /** A field that may be `undefined`. */
  datatype Option<+T> = None | Some(value: T)

  /** One clip of the edited video: a label and a duration in seconds, either of which
      the form may have left undefined. */
  datatype Video = Video(text: Option<string>, time: Option<real>)

  /** The four colours of one render mode (start state or end state). */
  datatype ColorSet = ColorSet(backgroundColor: string, borderColor: string, lineColor: string, fontColor: string)

  datatype Point = Point(x: real, y: real)

  const Origin: Point := Point(0.0, 0.0)

  /** The four named corners of the strip rectangle, in device pixels. */
  datatype Points = Points(topLeft: Point, bottomRight: Point, topRight: Point, bottomLeft: Point)

  /** The user-authored configuration. `position` is free text: the transform recognises
      "top", "bottom", "left" and "right" and treats anything else as unknown. */
  class TimeLine {
    var name: string
    var magicKey: string
    var devicePixelRatio: real
    var start: ColorSet
    var end: ColorSet
    var position: string
    var reverse: bool
    var size: real
    var fontSize: real
    var width: real
    var height: real
    var linePadding: real
    var lineWidth: real
    var videos: seq<Video>
  }

  /** The layout derived from a configuration: every configuration field (six of them
      scaled, `videos` filtered and ordered), plus the strip corners and the total time. */
  datatype TimeLineInfo = TimeLineInfo(
    name: string,
    magicKey: string,
    devicePixelRatio: real,
    start: ColorSet,
    end: ColorSet,
    position: string,
    reverse: bool,
    size: real,
    fontSize: real,
    width: real,
    height: real,
    linePadding: real,
    lineWidth: real,
    videos: seq<Video>,
    points: Points,
    totalTime: real)
}
