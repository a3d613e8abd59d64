/** The client's controller (GUI/GUI.Client/Controllers/NetworkController.cs):
    the connection handshake, the loop that reconciles the world from the server's
    lines, and the mapping from key presses to movement commands.

    The transport is reduced to two logs: `incoming` holds the lines the server
    sends on this connection that have not been read yet (a read of an exhausted
    stream fails), and `outgoing` holds every line this client has sent. */
module Network {
  import opened Wrappers
  import opened Worlds
  import opened Reconciliation

  /** A movement direction the client can request. */
  datatype Direction = Left | Up | Down | Right

  /** The key bindings: `a`/`ArrowLeft`, `w`/`ArrowUp`, `s`/`ArrowDown` and
      `d`/`ArrowRight`; every other key is unbound. */
  function KeyDirection(key: string): (d: Option<Direction>)
    ensures d.Some? <==> key in {"a", "ArrowLeft", "w", "ArrowUp", "s", "ArrowDown", "d", "ArrowRight"}
    ensures d == Some(Left) <==> key in {"a", "ArrowLeft"}
    ensures d == Some(Up) <==> key in {"w", "ArrowUp"}
    ensures d == Some(Down) <==> key in {"s", "ArrowDown"}
    ensures d == Some(Right) <==> key in {"d", "ArrowRight"}
  {
    match key
    case "a" => Some(Left)
    case "ArrowLeft" => Some(Left)
    case "w" => Some(Up)
    case "ArrowUp" => Some(Up)
    case "s" => Some(Down)
    case "ArrowDown" => Some(Down)
    case "d" => Some(Right)
    case "ArrowRight" => Some(Right)
    case _ => None
  }

  /** The direction's name on the wire. */
  function DirectionName(d: Direction): string {
    match d
    case Left => "left"
    case Up => "up"
    case Down => "down"
    case Right => "right"
  }

  /** The single-field JSON command for a direction: `{"moving":"<name>"}`. */
  function MoveCommand(d: Direction): string {
    "{\"moving\":\"" + DirectionName(d) + "\"}"
  }

  /** Different directions give different command lines, so the server can tell
      them apart. */
  lemma MoveCommandInjective(d1: Direction, d2: Direction)
    requires d1 != d2
    ensures MoveCommand(d1) != MoveCommand(d2)
  {
    var prefix := "{\"moving\":\"";
    assert |prefix| == 11;
    assert MoveCommand(d1)[11] == DirectionName(d1)[0];
    assert MoveCommand(d2)[11] == DirectionName(d2)[0];
    // the four names start with four different letters
  }

  /** The handshake succeeds when the connection opens and both numbers parse. */
  predicate HandshakeOk(stream: Option<seq<string>>, parse: string -> Option<int>) {
    stream.Some? && |stream.value| >= 2
    && parse(stream.value[0]).Some? && parse(stream.value[1]).Some?
  }

  class NetworkController {
    var playerId: int
    var connected: bool
    var incoming: seq<string>
    var outgoing: seq<string>

    constructor ()
      ensures playerId == 0 && !connected && incoming == [] && outgoing == []
    {
      playerId, connected := 0, false;
      incoming, outgoing := [], [];
    }

    /** Closes the connection. */
    method Disconnect()
      modifies this`connected
      ensures !connected
    {
      connected := false;
    }

    /** Sends the player's name, reads the player id and then the world size, and
        runs the network loop over the rest of the stream. `stream` is `None` when
        the server cannot be reached; `parse` is `int.Parse`, `None` for a line
        that does not parse. Any failure ends the handshake where it happened,
        keeps what was already assigned, and does not start the loop. */
    method Connect(playerName: string, stream: Option<seq<string>>, world: World,
                   parse: string -> Option<int>, des: Deserializers)
      requires world.Valid()
      modifies this, world, world.snakes.Values
      ensures world.Valid()
      ensures stream.None? ==>
                connected == old(connected) && incoming == old(incoming)
                && outgoing == old(outgoing) && playerId == old(playerId)
                && world.View() == old(world.View())
      ensures stream.Some? ==> outgoing == old(outgoing) + [playerName]
      ensures playerId == (if stream.Some? && |stream.value| >= 1 && parse(stream.value[0]).Some?
                           then parse(stream.value[0]).value else old(playerId))
      ensures HandshakeOk(stream, parse) ==>
                !connected
                && world.View() == Reconcile(old(world.View()).(worldSize := parse(stream.value[1]).value),
                                             stream.value[2..], des)
      ensures stream.Some? && !HandshakeOk(stream, parse) ==>
                connected && world.View() == old(world.View())
    {
      ghost var v0 := world.View();
      var ok, size := Handshake(playerName, stream, parse);
      assert world.View() == v0;
      if ok {
        world.worldSize := size;
        assert world.View() == v0.(worldSize := size);
        assert connected;
        NetworkLoop(world, des);
        assert world.View() == Reconcile(v0.(worldSize := size), stream.value[2..], des);
      }
    }

    /** The reads of `Connect` before the world size is stored: `ok` says whether
        they all succeeded, and then `size` is the parsed world size. */
    method Handshake(playerName: string, stream: Option<seq<string>>,
                     parse: string -> Option<int>) returns (ok: bool, size: int)
      modifies this
      ensures ok == HandshakeOk(stream, parse)
      ensures stream.None? ==>
                connected == old(connected) && incoming == old(incoming)
                && outgoing == old(outgoing) && playerId == old(playerId)
      ensures stream.Some? ==> connected && outgoing == old(outgoing) + [playerName]
      ensures playerId == (if stream.Some? && |stream.value| >= 1 && parse(stream.value[0]).Some?
                           then parse(stream.value[0]).value else old(playerId))
      ensures ok ==> incoming == stream.value[2..] && size == parse(stream.value[1]).value
    {
      ok, size := false, 0;
      if stream.None? {
        return;
      }
      connected := true;
      incoming := stream.value;
      outgoing := outgoing + [playerName];
      if incoming == [] {
        return;
      }
      var idLine := incoming[0];
      incoming := incoming[1..];
      var id := parse(idLine);
      if id.None? {
        return;
      }
      playerId := id.value;
      if incoming == [] {
        return;
      }
      var sizeLine := incoming[0];
      incoming := incoming[1..];
      var parsed := parse(sizeLine);
      if parsed.None? {
        return;
      }
      ok, size := true, parsed.value;
    }

    /** Reads lines while connected. Each line is classified and decoded; a
        decoded record is applied to the world, while a failed read or decode
        disconnects. */
    method NetworkLoop(world: World, des: Deserializers)
      requires world.Valid()
      modifies this, world, world.snakes.Values
      ensures world.Valid() && !connected
      ensures world.View() == if old(connected) then Reconcile(old(world.View()), old(incoming), des)
                              else old(world.View())
      ensures outgoing == old(outgoing) && playerId == old(playerId)
    {
      while connected
        invariant world.Valid()
        invariant forall s | s in world.snakes.Values :: s in old(world.snakes.Values) || fresh(s)
        invariant outgoing == old(outgoing) && playerId == old(playerId)
        invariant !old(connected) ==> !connected && world.View() == old(world.View())
        invariant old(connected) && connected ==>
                    Reconcile(world.View(), incoming, des) == Reconcile(old(world.View()), old(incoming), des)
        invariant old(connected) && !connected ==>
                    world.View() == Reconcile(old(world.View()), old(incoming), des)
        decreases |incoming| + (if connected then 1 else 0)
      {
        ReceiveLine(world, des);
      }
    }

    /** One pass of the loop: the next line is read, decoded and applied; a failed
        read or decode disconnects instead. The world then is what `Reconcile`
        makes of the lines still unread. */
    method ReceiveLine(world: World, des: Deserializers)
      requires world.Valid() && connected
      modifies this`incoming, this`connected, world, world.snakes.Values
      ensures world.Valid()
      ensures forall s | s in world.snakes.Values :: s in old(world.snakes.Values) || fresh(s)
      ensures |incoming| <= |old(incoming)| && (connected ==> |incoming| < |old(incoming)|)
      ensures connected ==>
                Reconcile(world.View(), incoming, des) == Reconcile(old(world.View()), old(incoming), des)
      ensures !connected ==> world.View() == Reconcile(old(world.View()), old(incoming), des)
    {
      if incoming == [] {
        Disconnect();
      } else {
        var json := incoming[0];
        incoming := incoming[1..];
        var rec := Decode(json, des);
        if rec.None? {
          Disconnect();
        } else {
          Dispatch(world, rec.value);
        }
      }
    }

    /** Sends the movement command bound to `key`; an unbound key sends nothing. */
    method KeyHandler(key: string)
      modifies this`outgoing
      ensures outgoing == old(outgoing) + (match KeyDirection(key)
                                           case Some(d) => [MoveCommand(d)]
                                           case None => [])
    {
      match KeyDirection(key)
      case Some(d) => outgoing := outgoing + [MoveCommand(d)];
      case None =>
    }
  }
}
