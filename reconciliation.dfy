/** How the client's network loop (GUI/GUI.Client/Controllers/NetworkController.cs,
    `NetworkLoop`) turns one line from the server into a change of the world:
    classification by substring, decoding, and the per-kind update rules. */
module Reconciliation {
  import opened Wrappers
  import opened Text
  import opened Powerups
  import opened Snakes
  import opened Walls
  import opened Worlds

  /** The kind a line is decoded as. */
  datatype Kind = SnakeLine | PowerLine | WallLine

  /** A decoded line. */
  datatype Record = SnakeRec(s: SnakeData) | PowerRec(p: Powerup) | WallRec(w: WallData)

  /** The JSON deserializer for each record shape; `None` stands for the exception
      a malformed line raises. */
  datatype Deserializers = Deserializers(
    snake: string -> Option<SnakeData>,
    power: string -> Option<Powerup>,
    wall: string -> Option<WallData>)

  /** Classification is ordered: "snake" first, then "power"; anything else is a
      wall. */
  function Classify(line: string): (k: Kind)
    ensures k == SnakeLine <==> Contains(line, "snake")
    ensures k == PowerLine <==> !Contains(line, "snake") && Contains(line, "power")
    ensures k == WallLine <==> !Contains(line, "snake") && !Contains(line, "power")
  {
    if Contains(line, "snake") then SnakeLine
    else if Contains(line, "power") then PowerLine
    else WallLine
  }

  /** A line that contains both "snake" and "power" is read as a snake, and
      decodes, if at all, to a snake record: the substring tests do not look at
      where the match is. */
  lemma SnakeNamedPowerIsSnake(line: string, des: Deserializers)
    requires Contains(line, "snake") && Contains(line, "power")
    ensures Classify(line) == SnakeLine
    ensures Decode(line, des).Some? ==> Decode(line, des).value.SnakeRec?
  {
  }

  /** Such lines occur: a snake named "powerup" contains both words. */
  lemma PowerupNamedSnakeLine()
    ensures var line := "{\"snake\":1,\"name\":\"powerup\"}";
            Contains(line, "snake") && Contains(line, "power") && Classify(line) == SnakeLine
  {
    var line := "{\"snake\":1,\"name\":\"powerup\"}";
    assert line == "{\"" + "snake" + "\":1,\"name\":\"" + "power" + "up\"}";
    ContainsAt(line, "snake", 2);
    ContainsAt(line, "power", 19);
  }

  /** Decodes a line as the kind its classification chooses. */
  function Decode(line: string, des: Deserializers): (r: Option<Record>)
    ensures r.None? <==> match Classify(line)
                         case SnakeLine => des.snake(line).None?
                         case PowerLine => des.power(line).None?
                         case WallLine => des.wall(line).None?
    ensures r.Some? ==> (r.value.SnakeRec? <==> Classify(line) == SnakeLine)
    ensures r.Some? ==> (r.value.PowerRec? <==> Classify(line) == PowerLine)
    ensures r.Some? ==> (r.value.WallRec? <==> Classify(line) == WallLine)
    ensures r.Some? && r.value.SnakeRec? ==> des.snake(line) == Some(r.value.s)
    ensures r.Some? && r.value.PowerRec? ==> des.power(line) == Some(r.value.p)
    ensures r.Some? && r.value.WallRec? ==> des.wall(line) == Some(r.value.w)
  {
    match Classify(line)
    case SnakeLine =>
      (match des.snake(line) case None => None case Some(s) => Some(SnakeRec(s)))
    case PowerLine =>
      (match des.power(line) case None => None case Some(p) => Some(PowerRec(p)))
    case WallLine =>
      (match des.wall(line) case None => None case Some(w) => Some(WallRec(w)))
  }

  /** An existing snake after `UpdateSnake(s)`. */
  function Updated(cur: SnakeView, s: SnakeData): SnakeView {
    SnakeView(Merge(cur.data, s), NextMax(cur.maxScore, s.score))
  }

  /** The world after one decoded record: a disconnected snake is removed; any
      other snake is inserted as decoded (maximum 0) or merged into the existing
      one; powerups and walls are overwritten by id. */
  function ApplyRecord(v: WorldView, rec: Record): WorldView {
    match rec
    case SnakeRec(s) =>
      if s.dc then v.(snakes := v.snakes - {s.snake})
      else if s.snake !in v.snakes then v.(snakes := v.snakes[s.snake := SnakeView(s, 0)])
      else v.(snakes := v.snakes[s.snake := Updated(v.snakes[s.snake], s)])
    case PowerRec(p) => v.(powerups := v.powerups[p.power := p])
    case WallRec(w) => v.(walls := v.walls[w.wall := w])
  }

  /** A record with `dc` set leaves its id absent and every other snake as it was. */
  lemma DisconnectRemoves(v: WorldView, s: SnakeData)
    requires s.dc
    ensures var r := ApplyRecord(v, SnakeRec(s));
            s.snake !in r.snakes
            && r.snakes.Keys == v.snakes.Keys - {s.snake}
            && forall id | id in r.snakes :: r.snakes[id] == v.snakes[id]
  {
  }

  /** A live snake seen for the first time is stored as decoded, with maximum 0. */
  lemma FirstSightingInserts(v: WorldView, s: SnakeData)
    requires !s.dc && s.snake !in v.snakes
    ensures ApplyRecord(v, SnakeRec(s)).snakes == v.snakes[s.snake := SnakeView(s, 0)]
  {
  }

  /** A live snake seen again keeps its id, name and running maximum; the maximum
      only grows, and every wire field but id and name is the record's. */
  lemma LaterSightingMerges(v: WorldView, s: SnakeData)
    requires !s.dc && s.snake in v.snakes
    ensures var r := ApplyRecord(v, SnakeRec(s)).snakes[s.snake];
            var cur := v.snakes[s.snake];
            r.data == s.(snake := cur.data.snake, name := cur.data.name)
            && r.maxScore >= cur.maxScore && r.maxScore >= s.score
            && (r.maxScore == cur.maxScore || r.maxScore == s.score)
  {
    MergeIsUpdateWithIdentity(v.snakes[s.snake].data, s);
  }

  /** A powerup record is stored whether or not `died` is set; powerups are never
      removed. */
  lemma PowerupOverwrites(v: WorldView, p: Powerup)
    ensures var r := ApplyRecord(v, PowerRec(p));
            r.powerups[p.power] == p && r.powerups.Keys == v.powerups.Keys + {p.power}
  {
  }

  /** A wall record replaces the stored wall wholesale. */
  lemma WallOverwrites(v: WorldView, w: WallData)
    ensures var r := ApplyRecord(v, WallRec(w));
            r.walls[w.wall] == w && r.walls.Keys == v.walls.Keys + {w.wall}
  {
  }

  /** One record changes at most one of the three maps, the one of its own kind,
      and never the world size: the id-spaces are independent. */
  lemma OneMapPerRecord(v: WorldView, rec: Record)
    ensures var r := ApplyRecord(v, rec);
            && r.worldSize == v.worldSize
            && (!rec.SnakeRec? ==> r.snakes == v.snakes)
            && (!rec.PowerRec? ==> r.powerups == v.powerups)
            && (!rec.WallRec? ==> r.walls == v.walls)
  {
  }

  /** Applying a record keeps every entry under its own id. */
  lemma ApplyKeepsWellKeyed(v: WorldView, rec: Record)
    requires WellKeyed(v)
    ensures WellKeyed(ApplyRecord(v, rec))
  {
  }

  /** Applying the same record twice is applying it once, except on the first
      sighting of a live snake: that inserts without touching the maximum, and the
      repeat then raises it. */
  lemma ApplyTwice(v: WorldView, rec: Record)
    requires !(rec.SnakeRec? && !rec.s.dc && rec.s.snake !in v.snakes)
    ensures ApplyRecord(ApplyRecord(v, rec), rec) == ApplyRecord(v, rec)
  {
    if rec.SnakeRec? && !rec.s.dc {
      var s := rec.s;
      UpdateTwiceIsUpdateOnce(v.snakes[s.snake].data, v.snakes[s.snake].maxScore, s);
    }
  }

  /** The exception to `ApplyTwice`: a first sighting with a positive score is not
      idempotent. */
  lemma FirstSightingTwiceRaisesMax(v: WorldView, s: SnakeData)
    requires !s.dc && s.snake !in v.snakes && s.score > 0
    ensures ApplyRecord(v, SnakeRec(s)).snakes[s.snake].maxScore == 0
    ensures ApplyRecord(ApplyRecord(v, SnakeRec(s)), SnakeRec(s)).snakes[s.snake].maxScore == s.score
  {
  }

  /** The world after the loop has read `lines`: records are applied in order
      until the first line that does not decode, where the loop disconnects. */
  function Reconcile(v: WorldView, lines: seq<string>, des: Deserializers): WorldView
    decreases |lines|
  {
    if lines == [] then v
    else match Decode(lines[0], des)
      case None => v
      case Some(rec) => Reconcile(ApplyRecord(v, rec), lines[1..], des)
  }

  /** Every line of `lines` decodes. */
  predicate AllDecode(lines: seq<string>, des: Deserializers) {
    forall i | 0 <= i < |lines| :: Decode(lines[i], des).Some?
  }

  /** Reading `a` then `b`, when all of `a` decodes, is reading `b` from where `a`
      left the world. */
  lemma {:induction false} ReconcileAppend(v: WorldView, a: seq<string>, b: seq<string>, des: Deserializers)
    requires AllDecode(a, des)
    ensures Reconcile(v, a + b, des) == Reconcile(Reconcile(v, a, des), b, des)
    decreases |a|
  {
    if a == [] {
      assert a + b == b;
    } else {
      assert (a + b)[0] == a[0] && (a + b)[1..] == a[1..] + b;
      assert Decode(a[0], des).Some?;
      var rec := Decode(a[0], des).value;
      assert AllDecode(a[1..], des) by {
        forall i | 0 <= i < |a[1..]| ensures Decode(a[1..][i], des).Some? {
          assert a[1..][i] == a[i + 1];
        }
      }
      ReconcileAppend(ApplyRecord(v, rec), a[1..], b, des);
    }
  }

  /** A line that does not decode ends the session: nothing after it is applied. */
  lemma StopsAtUndecodable(v: WorldView, good: seq<string>, bad: string, rest: seq<string>, des: Deserializers)
    requires AllDecode(good, des) && Decode(bad, des).None?
    ensures Reconcile(v, good + [bad] + rest, des) == Reconcile(v, good, des)
  {
    assert good + [bad] + rest == good + ([bad] + rest);
    ReconcileAppend(v, good, [bad] + rest, des);
    ReconcileAppend(v, good, [], des);
    assert good + [] == good;
  }

  /** Reconciling keeps entries under their own ids and never changes the world
      size. */
  lemma {:induction false} ReconcileKeepsWellKeyed(v: WorldView, lines: seq<string>, des: Deserializers)
    requires WellKeyed(v)
    ensures WellKeyed(Reconcile(v, lines, des))
    ensures Reconcile(v, lines, des).worldSize == v.worldSize
    decreases |lines|
  {
    if lines != [] {
      match Decode(lines[0], des)
      case None =>
      case Some(rec) =>
        ApplyKeepsWellKeyed(v, rec);
        OneMapPerRecord(v, rec);
        ReconcileKeepsWellKeyed(ApplyRecord(v, rec), lines[1..], des);
    }
  }

  /** Powerups and walls, once seen, stay for the rest of the session. */
  lemma {:induction false} ReconcileNeverDropsPowerupsOrWalls(v: WorldView, lines: seq<string>, des: Deserializers)
    ensures v.powerups.Keys <= Reconcile(v, lines, des).powerups.Keys
    ensures v.walls.Keys <= Reconcile(v, lines, des).walls.Keys
    decreases |lines|
  {
    if lines != [] {
      match Decode(lines[0], des)
      case None =>
      case Some(rec) =>
        ReconcileNeverDropsPowerupsOrWalls(ApplyRecord(v, rec), lines[1..], des);
    }
  }

  /** `NetworkLoop`'s handling of one decoded record, on the live world: the
      locked block for the record's kind. */
  method Dispatch(world: World, rec: Record)
    requires world.Valid()
    modifies world, world.snakes.Values
    ensures world.Valid()
    ensures world.View() == ApplyRecord(old(world.View()), rec)
    ensures forall s | s in world.snakes.Values :: s in old(world.snakes.Values) || fresh(s)
  {
    if rec.SnakeRec? {
      DispatchSnake(world, rec.s);
    } else if rec.PowerRec? {
      StorePowerup(world, rec.p);
    } else {
      StoreWall(world, rec.w);
    }
  }

  /** The locked block on `world.powerups` (lines 93-98): stored under its id. */
  method StorePowerup(world: World, p: Powerup)
    requires world.Valid()
    modifies world`powerups
    ensures world.Valid()
    ensures world.View() == ApplyRecord(old(world.View()), PowerRec(p))
  {
    world.powerups := world.powerups[p.power := p];
  }

  /** The locked block on `world.walls` (lines 102-107): a freshly decoded wall
      object replaces whatever was stored under its id. */
  method StoreWall(world: World, w: WallData)
    requires world.Valid()
    modifies world`walls
    ensures world.Valid()
    ensures world.View() == ApplyRecord(old(world.View()), WallRec(w))
  {
    var wall := new Wall.Decoded(w);
    world.walls := world.walls[w.wall := wall];
  }

  /** The locked block on `world.snakes` (lines 74-89): remove on `dc`, otherwise
      insert the decoded snake or merge it into the stored one. */
  method DispatchSnake(world: World, d: SnakeData)
    requires world.Valid()
    modifies world`snakes, world.snakes.Values
    ensures world.Valid()
    ensures world.View() == ApplyRecord(old(world.View()), SnakeRec(d))
    ensures forall s | s in world.snakes.Values :: s in old(world.snakes.Values) || fresh(s)
  {
    ghost var v0 := world.View();
    var snake := new Snake.Decoded(d);
    assert world.View() == v0;
    if !snake.dc {
      if snake.snake !in world.snakes {
        world.snakes := world.snakes[snake.snake := snake];
        assert world.View().snakes == v0.snakes[d.snake := SnakeView(d, 0)];
      } else {
        MergeInto(world, snake);
      }
    } else {
      world.snakes := world.snakes - {snake.snake};
      assert world.View().snakes == v0.snakes - {d.snake};
    }
  }

  /** `world.snakes[snake.snake].UpdateSnake(snake)`: only the stored snake with
      that id changes. */
  method MergeInto(world: World, snake: Snake)
    requires world.Valid() && snake.snake in world.snakes
    requires snake !in world.snakes.Values
    modifies world.snakes[snake.snake]
    ensures world.Valid()
    ensures world.View() == old(world.View()).(snakes := old(world.View()).snakes[snake.snake :=
              Updated(old(world.View()).snakes[snake.snake], old(snake.Data()))])
  {
    var existing := world.snakes[snake.snake];
    ghost var before := world.View();
    var _ := existing.UpdateSnake(snake);
    forall id | id in world.snakes && id != snake.snake
      ensures world.snakes[id].Data() == before.snakes[id].data
      ensures world.snakes[id].maxScore == before.snakes[id].maxScore
    {
      assert world.snakes[id] != existing;
    }
    assert world.View().snakes == before.snakes[snake.snake := Updated(before.snakes[snake.snake], old(snake.Data()))];
  }
}
