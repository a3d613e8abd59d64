/** A wall (GUI/GUI.Client/Models/Wall.cs): two endpoints and the tiling of the
    segment between them into square sprites of side `unitSize`. */
module Walls {
  import opened Points

  /** The fields the server sends for a wall: its id and both endpoints. */
  datatype WallData = WallData(wall: int, p1: Point2D, p2: Point2D)

  function Abs(n: int): int {
    if n < 0 then -n else n
  }

  /** The orientation `SetWallLength` derives: equal x coordinates make the wall
      vertical; everything else is treated as horizontal. */
  predicate IsVertical(p1: Point2D, p2: Point2D) {
    p1.x == p2.x
  }

  /** A point's coordinate along the wall's axis. */
  function Along(p: Point2D, vertical: bool): int {
    if vertical then p.y else p.x
  }

  /** A point's coordinate across the wall's axis. */
  function Across(p: Point2D, vertical: bool): int {
    if vertical then p.x else p.y
  }

  /** `WallLength`: the distance between the endpoints along the axis. */
  function Length(p1: Point2D, p2: Point2D): (len: int)
    ensures len >= 0
    ensures len == Abs(Along(p1, IsVertical(p1, p2)) - Along(p2, IsVertical(p1, p2)))
  {
    if p1.x == p2.x then Abs(p1.y - p2.y) else Abs(p1.x - p2.x)
  }

  /** `GetStartingPoint`: the endpoint with the smaller coordinate along the axis;
      `p1` on a tie. */
  function StartingPoint(p1: Point2D, p2: Point2D, vertical: bool): (sp: Point2D)
    ensures sp == p1 || sp == p2
    ensures Along(sp, vertical) <= Along(p1, vertical) && Along(sp, vertical) <= Along(p2, vertical)
    ensures Along(p1, vertical) <= Along(p2, vertical) ==> sp == p1
  {
    if vertical then (if p1.y > p2.y then p2 else p1)
    else (if p1.x > p2.x then p2 else p1)
  }

  /** The wall spans exactly `Length` from its starting point to its other
      endpoint; when it is vertical both endpoints share the off-axis coordinate. */
  lemma StartPlusLengthReachesOtherEnd(p1: Point2D, p2: Point2D)
    ensures var v := IsVertical(p1, p2);
            var sp := StartingPoint(p1, p2, v);
            var ep := if sp == p1 then p2 else p1;
            Along(sp, v) + Length(p1, p2) == Along(ep, v)
            && (v ==> Across(sp, v) == Across(ep, v))
  {
  }

  /** The top-left corner of the sprite drawn at offset `i` from the starting
      point: the start shifted back by half a unit on both axes, then by `i`
      along the wall. */
  function Tile(sp: Point2D, unitSize: int, vertical: bool, i: int): Point2D {
    var x := sp.x - unitSize / 2;
    var y := sp.y - unitSize / 2;
    if vertical then Point2D(x, y + i) else Point2D(x + i, y)
  }

  /** The points the `for (i = ...; i <= len; i += unitSize)` loop emits from
      offset `i` on. */
  function TilesFrom(sp: Point2D, unitSize: int, vertical: bool, i: int, len: int): seq<Point2D>
    requires unitSize > 0
    decreases len - i
  {
    if i > len then [] else [Tile(sp, unitSize, vertical, i)] + TilesFrom(sp, unitSize, vertical, i + unitSize, len)
  }

  /** The list `GetWallPoints(unitSize)` returns for a wall with these endpoints. */
  function WallPoints(p1: Point2D, p2: Point2D, unitSize: int): seq<Point2D>
    requires unitSize > 0
  {
    var v := IsVertical(p1, p2);
    TilesFrom(StartingPoint(p1, p2, v), unitSize, v, 0, Length(p1, p2))
  }

  /** Euclidean division is determined by quotient and remainder. */
  lemma DivUnique(n: int, u: int, q: int, r: int)
    requires u > 0 && 0 <= r < u && n == q * u + r
    ensures n / u == q
  {
    var d := q - n / u;
    assert d * u == n % u - r;
  }

  lemma DivStep(a: int, u: int)
    requires a >= 0 && u > 0
    ensures (a + u) / u == a / u + 1
  {
    var q, r := a / u, a % u;
    assert a + u == (q + 1) * u + r;
    DivUnique(a + u, u, q + 1, r);
  }

  /** The loop from offset `i` runs `(len - i) / unitSize + 1` times. */
  lemma {:induction false} TilesFromCount(sp: Point2D, unitSize: int, vertical: bool, i: int, len: int)
    requires unitSize > 0 && i <= len
    ensures |TilesFrom(sp, unitSize, vertical, i, len)| == (len - i) / unitSize + 1
    decreases len - i
  {
    if i + unitSize <= len {
      TilesFromCount(sp, unitSize, vertical, i + unitSize, len);
      DivStep(len - i - unitSize, unitSize);
    }
  }

  /** Point `k` of the loop from offset `i` is the sprite at offset
      `i + k * unitSize`. */
  lemma {:induction false} TilesFromAt(sp: Point2D, unitSize: int, vertical: bool, i: int, len: int, k: int)
    requires unitSize > 0 && 0 <= k < |TilesFrom(sp, unitSize, vertical, i, len)|
    ensures TilesFrom(sp, unitSize, vertical, i, len)[k] == Tile(sp, unitSize, vertical, i + k * unitSize)
    decreases len - i
  {
    if k > 0 {
      TilesFromAt(sp, unitSize, vertical, i + unitSize, len, k - 1);
      assert i + unitSize + (k - 1) * unitSize == i + k * unitSize;
    }
  }

  /** `GetWallPoints` returns `WallLength / unitSize + 1` points. */
  lemma WallPointsCount(p1: Point2D, p2: Point2D, unitSize: int)
    requires unitSize > 0
    ensures |WallPoints(p1, p2, unitSize)| == Length(p1, p2) / unitSize + 1
  {
    var v := IsVertical(p1, p2);
    TilesFromCount(StartingPoint(p1, p2, v), unitSize, v, 0, Length(p1, p2));
  }

  /** Point `k` is the starting point shifted back by `unitSize / 2` on both axes
      and forward by `k * unitSize` along the wall only. */
  lemma WallPointAt(p1: Point2D, p2: Point2D, unitSize: int, k: int)
    requires unitSize > 0 && 0 <= k < |WallPoints(p1, p2, unitSize)|
    ensures var v := IsVertical(p1, p2);
            var sp := StartingPoint(p1, p2, v);
            var pt := WallPoints(p1, p2, unitSize)[k];
            Across(pt, v) == Across(sp, v) - unitSize / 2
            && Along(pt, v) == Along(sp, v) - unitSize / 2 + k * unitSize
  {
    var v := IsVertical(p1, p2);
    TilesFromAt(StartingPoint(p1, p2, v), unitSize, v, 0, Length(p1, p2), k);
  }

  /** Across the list, the off-axis coordinate is constant and the on-axis one
      strictly increases. */
  lemma WallPointsMonotone(p1: Point2D, p2: Point2D, unitSize: int, j: int, k: int)
    requires unitSize > 0 && 0 <= j < k < |WallPoints(p1, p2, unitSize)|
    ensures var v := IsVertical(p1, p2);
            var pts := WallPoints(p1, p2, unitSize);
            Across(pts[j], v) == Across(pts[k], v) && Along(pts[j], v) < Along(pts[k], v)
  {
    WallPointAt(p1, p2, unitSize, j);
    WallPointAt(p1, p2, unitSize, k);
    assert j * unitSize < k * unitSize by {
      assert (k - j) * unitSize > 0;
    }
  }

  /** A wall whose endpoints coincide is a single sprite. */
  lemma DegenerateWallIsOnePoint(p: Point2D, unitSize: int)
    requires unitSize > 0
    ensures |WallPoints(p, p, unitSize)| == 1
  {
    WallPointsCount(p, p, unitSize);
  }

  /** The client's wall object. The id and endpoints are init-only; `wallLength`
      and `isVertical` are private state that `SetWallLength` writes. */
  class Wall {
    const wall: int
    const p1: Point2D
    const p2: Point2D
    var wallLength: int
    var isVertical: bool

    /** The wire fields of this wall. */
    function Data(): WallData {
      WallData(wall, p1, p2)
    }

    /** `isVertical` is only ever set, never cleared, and only for a vertical wall. */
    ghost predicate Valid()
      reads this
    {
      isVertical ==> IsVertical(p1, p2)
    }

    /** A wall as the JSON deserializer builds it: private state at its defaults. */
    constructor Decoded(d: WallData)
      ensures Data() == d && wallLength == 0 && !isVertical && Valid()
    {
      wall, p1, p2 := d.wall, d.p1, d.p2;
      wallLength, isVertical := 0, false;
    }

    /** Records the orientation and the length along it. */
    method SetWallLength()
      requires Valid()
      modifies this
      ensures Valid()
      ensures isVertical == IsVertical(p1, p2) && wallLength == Length(p1, p2)
    {
      if p1.x == p2.x {
        wallLength := Abs(p1.y - p2.y);
        isVertical := true;
      } else {
        wallLength := Abs(p1.x - p2.x);
      }
    }

    /** The endpoint the tiling starts from, by the recorded orientation: the
        one lower along the axis, `p1` on a tie. */
    function GetStartingPoint(): (sp: Point2D)
      reads this
      ensures sp == p1 || sp == p2
      ensures Along(sp, isVertical) <= Along(p1, isVertical) && Along(sp, isVertical) <= Along(p2, isVertical)
      ensures Along(p1, isVertical) <= Along(p2, isVertical) ==> sp == p1
    {
      StartingPoint(p1, p2, isVertical)
    }

    /** The sprite positions covering the wall. The result depends only on the
        init-only endpoints, so every call returns the same list. */
    method GetWallPoints(unitSize: int) returns (wallPoints: seq<Point2D>)
      requires Valid() && unitSize > 0
      modifies this
      ensures Valid()
      ensures isVertical == IsVertical(p1, p2) && wallLength == Length(p1, p2)
      ensures wallPoints == WallPoints(p1, p2, unitSize)
    {
      SetWallLength();
      wallPoints := [];
      var sp := GetStartingPoint();
      var i := 0;
      while i <= wallLength
        invariant i >= 0
        invariant wallPoints + TilesFrom(sp, unitSize, isVertical, i, wallLength)
                  == TilesFrom(sp, unitSize, isVertical, 0, wallLength)
        decreases wallLength - i
      {
        var x := sp.x - unitSize / 2;
        var y := sp.y - unitSize / 2;
        if isVertical {
          y := y + i;
        } else {
          x := x + i;
        }
        assert Point2D(x, y) == Tile(sp, unitSize, isVertical, i);
        assert TilesFrom(sp, unitSize, isVertical, i, wallLength)
               == [Point2D(x, y)] + TilesFrom(sp, unitSize, isVertical, i + unitSize, wallLength);
        wallPoints := wallPoints + [Point2D(x, y)];
        i := i + unitSize;
      }
    }
  }

  /** A client of the class: two calls on the same wall return equal lists. */
  method RepeatedCallsAgree(w: Wall, unitSize: int)
    requires w.Valid() && unitSize > 0
    modifies w
  {
    var first := w.GetWallPoints(unitSize);
    var second := w.GetWallPoints(unitSize);
    assert first == second;
  }
}
