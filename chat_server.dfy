/** The chat server (ChatServer/ChatServer.cs): a registry from live connections
    to claimed names, the per-connection session that negotiates a name and then
    relays messages, and the release of the name when the session fails.

    Each connection's `HandleConnect` runs on its own thread; here the threads
    are interleaved explicitly. `sessions` records where each one stands, and one
    `Step` runs one session from one read to the next, taking each locked block
    of that stretch as one atomic step. A read is an `Option<string>`: `None` is
    the exception a closed connection raises. Sends are appended to `sent`. */
module Chat {
  import opened Wrappers
  import opened Text

  /** A connection handle; identity is all that matters about it. */
  type Conn = nat

  /** Where a session stands, always just before a read.
      - `AwaitName`: at the top of the outer loop with `isInitial` set (line 48).
      - `Retry(names)`: inside the retry loop (line 59); `names` is the snapshot
        of registered names taken before the loop.
      - `Active`: name claimed, waiting for a message (line 76).
      - `Closed`: the handler has returned. */
  datatype Phase = AwaitName | Retry(names: set<string>) | Active | Closed

  /** One line sent to one connection. */
  datatype Delivery = Delivery(to: Conn, text: string)

  function Prompt(name: string): string {
    "username [" + name + "] is taken or invalid, please re-enter."
  }

  function Welcome(name: string): string {
    "user: [" + name + "] connected"
  }

  function Relayed(sender: string, message: string): string {
    "[" + sender + "]: " + message
  }

  /** No two connections hold the same name. */
  ghost predicate UniqueNames(clients: map<Conn, string>) {
    forall a, b | a in clients && b in clients && a != b :: clients[a] != clients[b]
  }

  /** The connections a batch of sends goes to. */
  function Recipients(batch: seq<Delivery>): set<Conn> {
    set i | 0 <= i < |batch| :: batch[i].to
  }

  lemma RecipientsAppend(batch: seq<Delivery>, d: Delivery)
    ensures Recipients(batch + [d]) == Recipients(batch) + {d.to}
  {
    var b := batch + [d];
    assert forall i | 0 <= i < |batch| :: b[i] == batch[i];
    assert b[|batch|] == d;
  }

  /** `batch` sends `text` to every connection of `to`, each exactly once, and to
      no one else. */
  ghost predicate DeliveredOnce(batch: seq<Delivery>, to: set<Conn>, text: string) {
    && Recipients(batch) == to
    && (forall i | 0 <= i < |batch| :: batch[i].text == text)
    && (forall i, j | 0 <= i < j < |batch| :: batch[i].to != batch[j].to)
  }

  /** Only connection `c`'s session and registry entry differ between the two
      states; the set of sessions is the same. */
  ghost predicate OthersUnchanged(c: Conn, sessions0: map<Conn, Phase>, sessions1: map<Conn, Phase>,
                                  clients0: map<Conn, string>, clients1: map<Conn, string>) {
    && sessions1.Keys == sessions0.Keys
    && (forall d | d in sessions1 && d != c :: sessions1[d] == sessions0[d])
    && clients1 - {c} == clients0 - {c}
  }

  /** Claiming a name nobody holds keeps the names distinct. */
  lemma ClaimKeepsNamesUnique(clients: map<Conn, string>, c: Conn, name: string)
    requires UniqueNames(clients) && name !in clients.Values
    ensures UniqueNames(clients[c := name])
  {
    forall a | a in clients ensures clients[a] != name {
      assert clients[a] in clients.Values;
    }
  }

  /** Releasing a connection frees its name: no remaining connection holds it. */
  lemma ReleaseFreesName(clients: map<Conn, string>, c: Conn)
    requires UniqueNames(clients) && c in clients
    ensures UniqueNames(clients - {c})
    ensures clients[c] !in (clients - {c}).Values
  {
  }

  /** The relay of one message (lines 76-87): for a message that is not empty,
      one send of `[<sender's name>]: <message>` to every connection of the
      snapshot `copy`, the sender included; for an empty message, nothing. */
  method RelayBatch(copy: map<Conn, string>, sender: Conn, message: string) returns (batch: seq<Delivery>)
    requires message != "" ==> sender in copy
    ensures message == "" ==> batch == []
    ensures message != "" ==> DeliveredOnce(batch, copy.Keys, Relayed(copy[sender], message))
  {
    batch := [];
    var pending := copy.Keys;
    while pending != {}
      invariant pending <= copy.Keys
      invariant message == "" ==> batch == []
      invariant message != "" ==> DeliveredOnce(batch, copy.Keys - pending, Relayed(copy[sender], message))
      decreases pending
    {
      var client :| client in pending;
      pending := pending - {client};
      if message != "" {
        RecipientsAppend(batch, Delivery(client, Relayed(copy[sender], message)));
        batch := batch + [Delivery(client, Relayed(copy[sender], message))];
      }
    }
  }

  class ChatServer {
    var clients: map<Conn, string>
    var sessions: map<Conn, Phase>
    var sent: seq<Delivery>

    /** Names are distinct, and a connection is registered exactly while its
        session is active. */
    ghost predicate Valid()
      reads this
    {
      && UniqueNames(clients)
      && (forall c | c in clients :: c in sessions && sessions[c].Active?)
      && (forall c | c in sessions && sessions[c].Active? :: c in clients)
    }

    constructor ()
      ensures Valid() && clients == map[] && sessions == map[] && sent == []
    {
      clients, sessions, sent := map[], map[], [];
    }

    /** A new connection starts its handler, which first reads a name. */
    method Accept(c: Conn)
      requires Valid() && c !in sessions
      modifies this`sessions
      ensures Valid()
      ensures sessions == old(sessions)[c := AwaitName]
    {
      sessions := sessions[c := AwaitName];
    }

    /** The final live check and claim (lines 66-73): the name is registered only
        if no connection holds it now; then the welcome line goes out and the
        session becomes active. Otherwise the session goes back to reading a
        fresh name, with no prompt. */
    method Claim(c: Conn, name: string) returns (out: seq<Delivery>)
      requires Valid() && c in sessions && !sessions[c].Active? && !sessions[c].Closed?
      modifies this
      ensures Valid()
      ensures sent == old(sent) + out
      ensures OthersUnchanged(c, old(sessions), sessions, old(clients), clients)
      ensures name !in old(clients).Values ==>
                clients == old(clients)[c := name] && sessions == old(sessions)[c := Active]
                && out == [Delivery(c, Welcome(name))]
      ensures name in old(clients).Values ==>
                clients == old(clients) && sessions == old(sessions)[c := AwaitName] && out == []
    {
      if name in clients.Values {
        out := [];
        sessions := sessions[c := AwaitName];
        return;
      }
      ClaimKeepsNamesUnique(clients, c, name);
      clients := clients[c := name];
      out := [Delivery(c, Welcome(name))];
      sent := sent + out;
      sessions := sessions[c := Active];
    }

    /** The handler's exception path (lines 90-96): the connection's entry is
        removed, if it has one, and the session ends. */
    method Release(c: Conn)
      requires Valid() && c in sessions
      modifies this`clients, this`sessions
      ensures Valid()
      ensures OthersUnchanged(c, old(sessions), sessions, old(clients), clients)
      ensures clients == old(clients) - {c} && sessions == old(sessions)[c := Closed]
      ensures c in old(clients) ==> old(clients)[c] !in clients.Values
    {
      if c in clients {
        ReleaseFreesName(clients, c);
      }
      clients := clients - {c};
      sessions := sessions[c := Closed];
    }

    /** The first proposal (lines 46-73 with `isInitial` set): the trimmed name is
        refused with a prompt when a connection holds it or it is blank, and the
        snapshot of names is kept for the retries; otherwise it is claimed. */
    method ProposeName(c: Conn, line: string) returns (out: seq<Delivery>)
      requires Valid() && c in sessions && sessions[c].AwaitName?
      modifies this
      ensures Valid()
      ensures sent == old(sent) + out
      ensures OthersUnchanged(c, old(sessions), sessions, old(clients), clients)
      ensures var name := Trim(line);
              if name in old(clients).Values || IsNullOrWhiteSpace(name) then
                clients == old(clients) && sessions[c] == Retry(old(clients).Values)
                && out == [Delivery(c, Prompt(name))]
              else
                clients == old(clients)[c := name] && sessions[c].Active?
                && out == [Delivery(c, Welcome(name))]
    {
      var clientName := Trim(line);
      var names := clients.Values;
      if clientName in names || IsNullOrWhiteSpace(clientName) {
        assert c !in clients;
        out := [Delivery(c, Prompt(clientName))];
        sent := sent + out;
        sessions := sessions[c := Retry(names)];
      } else {
        out := Claim(c, clientName);
      }
    }

    /** One pass of the retry loop (lines 56-73): the trimmed name is claimed as
        soon as no connection holds it now, blank or not; while the snapshot or
        blankness still rejects it, the prompt is sent again; otherwise the final
        check fails and the session goes back to a fresh read with no prompt. */
    method RetryName(c: Conn, line: string) returns (out: seq<Delivery>)
      requires Valid() && c in sessions && sessions[c].Retry?
      modifies this
      ensures Valid()
      ensures sent == old(sent) + out
      ensures OthersUnchanged(c, old(sessions), sessions, old(clients), clients)
      ensures var name := Trim(line);
              if name !in old(clients).Values then
                clients == old(clients)[c := name] && sessions[c].Active?
                && out == [Delivery(c, Welcome(name))]
              else if name in old(sessions)[c].names || IsNullOrWhiteSpace(name) then
                clients == old(clients) && sessions[c] == old(sessions)[c]
                && out == [Delivery(c, Prompt(name))]
              else
                clients == old(clients) && sessions[c].AwaitName? && out == []
    {
      var clientName := Trim(line);
      if clientName !in clients.Values {
        out := Claim(c, clientName);
      } else if clientName in sessions[c].names || IsNullOrWhiteSpace(clientName) {
        out := [Delivery(c, Prompt(clientName))];
        sent := sent + out;
      } else {
        out := Claim(c, clientName);
      }
    }

    /** One message of an active session (lines 76-87), relayed to a snapshot of
        the registry. */
    method Relay(c: Conn, line: string) returns (out: seq<Delivery>)
      requires Valid() && c in sessions && sessions[c].Active?
      modifies this`sent
      ensures sent == old(sent) + out
      ensures var message := Trim(line);
              && (message == "" ==> out == [])
              && (message != "" ==> DeliveredOnce(out, clients.Keys, Relayed(clients[c], message)))
    {
      var message := Trim(line);
      var clientsCopy := clients;
      out := RelayBatch(clientsCopy, c, message);
      sent := sent + out;
    }

    /** Runs session `c` on the result of its next read, up to its following read.
        `out` is what it sends meanwhile. */
    method Step(c: Conn, line: Option<string>) returns (out: seq<Delivery>)
      requires Valid() && c in sessions
      modifies this
      ensures Valid()
      ensures sent == old(sent) + out
      ensures OthersUnchanged(c, old(sessions), sessions, old(clients), clients)
      // a closed session reads nothing
      ensures old(sessions)[c].Closed? ==>
                clients == old(clients) && sessions == old(sessions) && out == []
      // a failed read releases the name and ends the session
      ensures !old(sessions)[c].Closed? && line.None? ==>
                clients == old(clients) - {c} && sessions[c].Closed? && out == []
      // the first proposal: rejected with a prompt when taken or blank, else claimed
      ensures old(sessions)[c].AwaitName? && line.Some? ==>
                var name := Trim(line.value);
                if name in old(clients).Values || IsNullOrWhiteSpace(name) then
                  clients == old(clients) && sessions[c] == Retry(old(clients).Values)
                  && out == [Delivery(c, Prompt(name))]
                else
                  clients == old(clients)[c := name] && sessions[c].Active?
                  && out == [Delivery(c, Welcome(name))]
      // a retry: claimed as soon as nobody holds the name now (blank or not);
      // prompted again while the old snapshot or blankness still rejects it;
      // otherwise back to a fresh read with no prompt
      ensures old(sessions)[c].Retry? && line.Some? ==>
                var name := Trim(line.value);
                if name !in old(clients).Values then
                  clients == old(clients)[c := name] && sessions[c].Active?
                  && out == [Delivery(c, Welcome(name))]
                else if name in old(sessions)[c].names || IsNullOrWhiteSpace(name) then
                  clients == old(clients) && sessions[c] == old(sessions)[c] && out == [Delivery(c, Prompt(name))]
                else
                  clients == old(clients) && sessions[c].AwaitName? && out == []
      // an active session relays a non-empty message to every registered connection
      ensures old(sessions)[c].Active? && line.Some? ==>
                var message := Trim(line.value);
                clients == old(clients) && sessions == old(sessions)
                && (message == "" ==> out == [])
                && (message != "" ==> DeliveredOnce(out, old(clients).Keys, Relayed(old(clients)[c], message)))
    {
      var phase := sessions[c];
      if phase.Closed? {
        return [];
      }
      if line.None? {
        Release(c);
        return [];
      }
      match phase
      case AwaitName =>
        out := ProposeName(c, line.value);
      case Retry(_) =>
        out := RetryName(c, line.value);
      case Active =>
        out := Relay(c, line.value);
    }
  }

  /** Two sessions want "Alice": the second is prompted until the first
      disconnects, after which the same name is accepted. */
  method AliceReclaimedAfterDisconnect() {
    var server := new ChatServer();
    server.Accept(1);
    server.Accept(2);
    TrimOfTrimmed("Alice");
    assert !IsNullOrWhiteSpace("Alice") by {
      assert !IsWhiteSpace("Alice"[0]);
    }
    var out := server.ProposeName(1, "Alice");
    assert server.clients == map[1 := "Alice"];
    assert server.sessions[2].AwaitName?;
    out := server.ProposeName(2, "Alice");
    assert "Alice" in server.clients.Values by {
      assert server.clients[1] == "Alice";
    }
    assert out == [Delivery(2, Prompt("Alice"))];
    server.Release(1);
    assert server.clients == map[];
    out := server.RetryName(2, "Alice");
    assert server.clients == map[2 := "Alice"];
    assert out == [Delivery(2, Welcome("Alice"))];
  }

  /** A blank first name is refused, but the retry loop does not test for blank
      names again: an empty name is then registered. */
  method EmptyNameAcceptedOnRetry() {
    var server := new ChatServer();
    server.Accept(7);
    TrimOfTrimmed("");
    var out := server.Step(7, Some(""));
    assert IsNullOrWhiteSpace("");
    assert out == [Delivery(7, Prompt(""))];
    out := server.Step(7, Some(""));
    assert server.clients == map[7 := ""];
    assert out == [Delivery(7, Welcome(""))];
  }
}
