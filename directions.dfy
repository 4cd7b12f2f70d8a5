/** The four poses of a motion sheet and a record holding one value per pose,
    the shape of `uploadUrls` and `blobUrls` in the motion task payload. */
module Directions {

  datatype Direction = Front | Back | Left | Right

  /** The four poses in the order the source writes them. */
  const AllDirections: seq<Direction> := [Front, Back, Left, Right]

  /** The blob file name of a pose. */
  function FileName(d: Direction): string
  {
    match d
    case Front => "front.png"
    case Back => "back.png"
    case Left => "left.png"
    case Right => "right.png"
  }

  /** Different poses are stored under different file names. */
  lemma FileNameInjective(d1: Direction, d2: Direction)
    requires d1 != d2
    ensures FileName(d1) != FileName(d2)
  {
  }

  /** A file name holds no path separator and no query mark. */
  lemma FileNameIsPlain(d: Direction)
    ensures '/' !in FileName(d) && '?' !in FileName(d)
  {
    var f := FileName(d);
    forall k | 0 <= k < |f| ensures f[k] != '/' && f[k] != '?' {
    }
  }

  datatype PerDirection<T> = PerDirection(front: T, back: T, left: T, right: T)
  {
    function Get(d: Direction): T
    {
      match d
      case Front => front
      case Back => back
      case Left => left
      case Right => right
    }

    /** The four values in the order of `AllDirections`. */
    function InOrder(): (r: seq<T>)
      ensures |r| == 4 && forall k :: 0 <= k < 4 ==> r[k] == Get(AllDirections[k])
    {
      [front, back, left, right]
    }
  }
}
