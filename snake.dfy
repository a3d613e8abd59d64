/** A player's snake (GUI/GUI.Client/Models/Snake.cs): the wire record, the
    field merge applied on every later sighting, and the client-only running
    maximum of the score. */
module Snakes {
  import opened Points

  /** The fields the server sends for a snake. `MaxScore` is not among them: it is
      ignored by the JSON (de)serializer and lives only in the client. */
  datatype SnakeData = SnakeData(
    snake: int,
    name: string,
    body: seq<Point2D>,
    dir: Point2D,
    score: int,
    died: bool,
    alive: bool,
    dc: bool,
    join: bool)

  /** The wire fields of `cur` after `UpdateSnake(s)`: `snake` and `name` (init-only)
      stay, the seven server-authoritative fields come from `s`. */
  function Merge(cur: SnakeData, s: SnakeData): SnakeData {
    cur.(body := s.body, dir := s.dir, score := s.score, died := s.died,
         alive := s.alive, dc := s.dc, join := s.join)
  }

  /** The merged record is the update itself with the current identity put back:
      nothing of `cur` survives but its id and name. */
  lemma MergeIsUpdateWithIdentity(cur: SnakeData, s: SnakeData)
    ensures Merge(cur, s) == s.(snake := cur.snake, name := cur.name)
  {
  }

  /** `MaxScore` after `CheckScore` with the current score `score`: the larger of
      the two. */
  function NextMax(maxScore: int, score: int): (r: int)
    ensures r >= maxScore && r >= score
    ensures r == maxScore || r == score
  {
    if score <= maxScore then maxScore else score
  }

  /** `MaxScore` after a run of updates carrying the given scores, one after the
      other. */
  function MaxAfter(maxScore: int, scores: seq<int>): int
    decreases |scores|
  {
    if scores == [] then maxScore else MaxAfter(NextMax(maxScore, scores[0]), scores[1..])
  }

  /** `MaxScore` never decreases, ends at or above every score seen, and is always
      the starting value or one of those scores. */
  lemma {:induction false} MaxAfterIsRunningMaximum(maxScore: int, scores: seq<int>)
    ensures MaxAfter(maxScore, scores) >= maxScore
    ensures forall i | 0 <= i < |scores| :: MaxAfter(maxScore, scores) >= scores[i]
    ensures MaxAfter(maxScore, scores) == maxScore || MaxAfter(maxScore, scores) in scores
    decreases |scores|
  {
    if scores != [] {
      var m := NextMax(maxScore, scores[0]);
      MaxAfterIsRunningMaximum(m, scores[1..]);
      forall i | 0 <= i < |scores| ensures MaxAfter(maxScore, scores) >= scores[i] {
        if i > 0 {
          assert scores[i] == scores[1..][i - 1];
        }
      }
      if MaxAfter(maxScore, scores) != maxScore && MaxAfter(maxScore, scores) != m {
        assert MaxAfter(maxScore, scores) in scores[1..];
      }
    }
  }

  /** Splitting a run of updates in two: the second part starts from where the
      first left `MaxScore`, so a longer run never ends lower than its prefix. */
  lemma {:induction false} MaxAfterAppend(maxScore: int, a: seq<int>, b: seq<int>)
    ensures MaxAfter(maxScore, a + b) == MaxAfter(MaxAfter(maxScore, a), b)
    ensures MaxAfter(maxScore, a + b) >= MaxAfter(maxScore, a)
    decreases |a|
  {
    if a == [] {
      assert a + b == b;
      MaxAfterIsRunningMaximum(maxScore, b);
    } else {
      assert (a + b)[0] == a[0] && (a + b)[1..] == a[1..] + b;
      MaxAfterAppend(NextMax(maxScore, a[0]), a[1..], b);
    }
  }

  /** Applying the same update a second time changes nothing and reports no new
      maximum. */
  lemma UpdateTwiceIsUpdateOnce(cur: SnakeData, maxScore: int, s: SnakeData)
    ensures Merge(Merge(cur, s), s) == Merge(cur, s)
    ensures NextMax(NextMax(maxScore, s.score), s.score) == NextMax(maxScore, s.score)
    ensures !(Merge(cur, s).score > NextMax(maxScore, s.score))
  {
  }

  /** The client's snake object. `snake` (the id) and `name` are init-only; the
      other wire fields and `maxScore` are updated in place. */
  class Snake {
    var maxScore: int
    const snake: int
    const name: string
    var body: seq<Point2D>
    var dir: Point2D
    var score: int
    var died: bool
    var alive: bool
    var dc: bool
    var join: bool

    /** The wire fields of this snake. */
    function Data(): SnakeData
      reads this
    {
      SnakeData(snake, name, body, dir, score, died, alive, dc, join)
    }

    /** A snake as the JSON deserializer builds it: every wire field from the
        record, `maxScore` at its default 0. */
    constructor Decoded(d: SnakeData)
      ensures Data() == d && maxScore == 0
    {
      snake, name, body, dir, score := d.snake, d.name, d.body, d.dir, d.score;
      died, alive, dc, join := d.died, d.alive, d.dc, d.join;
      maxScore := 0;
    }

    /** Copies the seven server-authoritative fields of `s`, then updates the
        running maximum; returns whether the new score beats the old maximum. */
    method UpdateSnake(s: Snake) returns (newMax: bool)
      modifies this
      ensures Data() == Merge(old(Data()), old(s.Data()))
      ensures maxScore == NextMax(old(maxScore), old(s.score))
      ensures newMax <==> old(s.score) > old(maxScore)
    {
      body := s.body;
      dir := s.dir;
      score := s.score;
      died := s.died;
      alive := s.alive;
      dc := s.dc;
      join := s.join;
      newMax := CheckScore();
    }

    /** Raises `maxScore` to the current score when that is strictly larger, and
        says whether it did. */
    method CheckScore() returns (newMax: bool)
      modifies this`maxScore
      ensures maxScore == NextMax(old(maxScore), score)
      ensures newMax <==> score > old(maxScore)
    {
      if score <= maxScore {
        return false;
      }
      maxScore := score;
      return true;
    }
  }

  /** A client of the class: a repeated update leaves the snake as the first one
      did and reports no new maximum the second time. */
  method UpdateTwice(target: Snake, s: Snake)
    modifies target
  {
    var first := target.UpdateSnake(s);
    var data, max := target.Data(), target.maxScore;
    var second := target.UpdateSnake(s);
    assert target.Data() == data && target.maxScore == max;
    assert !second;
  }
}
