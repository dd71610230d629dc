/**
 * The websocket hub: a registry of connected clients, the inbound event
 * channel, and the rule that turns a "deleteUser" event into a "logout"
 * broadcast. The hub is modelled sequentially as one object; the transport
 * (upgrade, JSON framing, whether a read or write succeeds) is given as input.
 */
module WsHandlers {
  import opened Base

  /** An upgraded websocket connection, identified by an opaque number. */
  datatype Conn = Conn(id: nat)

  /** An event read from a client, tagged with the connection it came from. */
  datatype WsPayload = WsPayload(
    action: string, message: string, userName: string, userId: int,
    messageType: string, conn: Conn)

  /** A message sent to clients. */
  datatype WsJsonResponse = WsJsonResponse(action: string, message: string, userId: int)

  /** One attempted write: to whom, what, and whether it succeeded. */
  datatype Write = Write(conn: Conn, response: WsJsonResponse, ok: bool)

  /** One attempt to read a JSON message from a connection. */
  datatype Read = Received(payload: WsPayload) | ReadFailed

  /** The greeting written to a client right after the upgrade. */
  const Greeting := WsJsonResponse("", "Connected to server", 0)

  predicate Distinct<T(==)>(s: seq<T>)
  {
    forall i, j :: 0 <= i < j < |s| ==> s[i] != s[j]
  }

  /** The payloads a read loop forwards: every read up to the first failure, tagged with `conn`. */
  function Forwarded(inbox: seq<Read>, conn: Conn): (ps: seq<WsPayload>)
    ensures |ps| <= |inbox|
    ensures forall i :: 0 <= i < |ps| ==> inbox[i].Received? && ps[i] == inbox[i].payload.(conn := conn)
    ensures |ps| < |inbox| ==> inbox[|ps|].ReadFailed?
  {
    if inbox == [] || inbox[0].ReadFailed? then []
    else [inbox[0].payload.(conn := conn)] + Forwarded(inbox[1..], conn)
  }

  /** The dispatch rule: only "deleteUser" is answered, with a logout for that user. */
  function Dispatch(e: WsPayload): (r: Option<WsJsonResponse>)
    ensures r.Some? <==> e.action == "deleteUser"
    ensures r.Some? ==> r.value.action == "logout" && r.value.message == "Your account has been deleted"
                        && r.value.userId == e.userId
  {
    if e.action == "deleteUser" then
      Some(WsJsonResponse("logout", "Your account has been deleted", e.userId))
    else None
  }

  /** The clients that remain after a broadcast whose writes succeed exactly where `writeOk` holds. */
  function Survivors(clients: map<Conn, string>, writeOk: Conn -> bool): (m: map<Conn, string>)
    ensures m.Keys <= clients.Keys
    ensures forall c :: c in m ==> m[c] == clients[c]
    ensures forall c :: c in clients ==> (c in m <==> writeOk(c))
  {
    map c | c in clients && writeOk(c) :: clients[c]
  }

  /** The write log of a broadcast of `response` to `cs`, in order. */
  function Attempts(cs: seq<Conn>, response: WsJsonResponse, writeOk: Conn -> bool): (ws: seq<Write>)
    ensures |ws| == |cs|
    ensures forall i :: 0 <= i < |cs| ==> ws[i] == Write(cs[i], response, writeOk(cs[i]))
  {
    seq(|cs|, i requires 0 <= i < |cs| => Write(cs[i], response, writeOk(cs[i])))
  }

  /** Whether the writes of the broadcast for the k-th event succeed, per client. */
  function WritesOf(outcome: (nat, Conn) -> bool, k: nat): Conn -> bool
  {
    c => outcome(k, c)
  }

  /**
   * Midway through a broadcast that started from `start`, `closed0` and
   * `writes0`: the clients in `attempted` were written to, in that order, the
   * failed ones closed and removed, and `pending` are the ones still to go.
   */
  ghost predicate Broadcasting(start: map<Conn, string>, closed0: set<Conn>, writes0: seq<Write>,
                               response: WsJsonResponse, writeOk: Conn -> bool,
                               pending: set<Conn>, attempted: seq<Conn>,
                               clients: map<Conn, string>, closed: set<Conn>, writes: seq<Write>)
  {
    && pending <= start.Keys
    && Distinct(attempted)
    && (forall c :: c in attempted ==> c in start && c !in pending)
    && (forall c :: c in start ==> c in pending || c in attempted)
    && clients == (map c | c in start && (c in pending || writeOk(c)) :: start[c])
    && closed == closed0 + (set c | c in attempted && !writeOk(c))
    && writes == writes0 + Attempts(attempted, response, writeOk)
  }

  /** Writing to one more pending client, and dropping it if the write fails, keeps a broadcast on track. */
  lemma BroadcastStep(start: map<Conn, string>, closed0: set<Conn>, writes0: seq<Write>,
                      response: WsJsonResponse, writeOk: Conn -> bool,
                      pending: set<Conn>, attempted: seq<Conn>,
                      clients: map<Conn, string>, closed: set<Conn>, writes: seq<Write>, c: Conn)
    requires Broadcasting(start, closed0, writes0, response, writeOk, pending, attempted, clients, closed, writes)
    requires c in pending
    ensures Broadcasting(start, closed0, writes0, response, writeOk, pending - {c}, attempted + [c],
                         if writeOk(c) then clients else clients - {c},
                         if writeOk(c) then closed else closed + {c},
                         writes + [Write(c, response, writeOk(c))])
  {
    var attempted' := attempted + [c];
    assert Attempts(attempted', response, writeOk) == Attempts(attempted, response, writeOk) + [Write(c, response, writeOk(c))];
    assert (set x | x in attempted' && !writeOk(x))
           == (set x | x in attempted && !writeOk(x)) + (if writeOk(c) then {} else {c});
  }

  /** A broadcast with nobody pending has attempted every client once. */
  lemma BroadcastDone(start: map<Conn, string>, closed0: set<Conn>, writes0: seq<Write>,
                      response: WsJsonResponse, writeOk: Conn -> bool, attempted: seq<Conn>,
                      clients: map<Conn, string>, closed: set<Conn>, writes: seq<Write>)
    requires Broadcasting(start, closed0, writes0, response, writeOk, {}, attempted, clients, closed, writes)
    ensures Distinct(attempted) && (set c | c in attempted) == start.Keys
    ensures clients == Survivors(start, writeOk)
    ensures closed == closed0 + (set c | c in start && !writeOk(c))
    ensures writes == writes0 + Attempts(attempted, response, writeOk)
  {
  }

  /** The registry after one event; a broadcast for the k-th event drops the clients whose write failed. */
  function Step(clients: map<Conn, string>, e: WsPayload, outcome: (nat, Conn) -> bool, k: nat): map<Conn, string>
  {
    if Dispatch(e).Some? then Survivors(clients, WritesOf(outcome, k)) else clients
  }

  /** The clients the k-th event closes: for a broadcast, the registered ones whose write failed. */
  function ClosedBy(clients: map<Conn, string>, e: WsPayload, outcome: (nat, Conn) -> bool, k: nat): set<Conn>
  {
    if Dispatch(e).Some? then set c | c in clients && !WritesOf(outcome, k)(c) else {}
  }

  /** The writes the k-th event makes when its broadcast visits the clients in `order`. */
  function EventLog(e: WsPayload, order: seq<Conn>, outcome: (nat, Conn) -> bool, k: nat): seq<Write>
  {
    match Dispatch(e)
    case None => []
    case Some(response) => Attempts(order, response, WritesOf(outcome, k))
  }

  /**
   * The registry after the dispatch loop has handled `events`, the writes of
   * the broadcast for event k succeeding where `outcome(k, _)` holds.
   */
  function RegistryAfter(clients: map<Conn, string>, events: seq<WsPayload>,
                         outcome: (nat, Conn) -> bool): map<Conn, string>
    decreases |events|
  {
    if events == [] then clients
    else
      var n := |events| - 1;
      Step(RegistryAfter(clients, events[..n], outcome), events[n], outcome, n)
  }

  /** The clients closed while handling `events`: at each broadcast, the registered ones whose write failed. */
  function ClosedAfter(clients: map<Conn, string>, events: seq<WsPayload>,
                       outcome: (nat, Conn) -> bool): set<Conn>
    decreases |events|
  {
    if events == [] then {}
    else
      var n := |events| - 1;
      ClosedAfter(clients, events[..n], outcome)
        + ClosedBy(RegistryAfter(clients, events[..n], outcome), events[n], outcome, n)
  }

  /**
   * `order` is a possible visit order for event `e` with `clients` registered:
   * every registered client exactly once for a broadcast, nobody otherwise.
   */
  predicate OrderFits(order: seq<Conn>, clients: map<Conn, string>, e: WsPayload)
  {
    if Dispatch(e).Some? then Distinct(order) && (set c | c in order) == clients.Keys
    else order == []
  }

  /** The writes made while handling `events`, the broadcast for event k visiting clients in `orders[k]`. */
  function LogAfter(events: seq<WsPayload>, orders: seq<seq<Conn>>, outcome: (nat, Conn) -> bool): seq<Write>
    requires |orders| == |events|
    decreases |events|
  {
    if events == [] then []
    else
      var n := |events| - 1;
      LogAfter(events[..n], orders[..n], outcome) + EventLog(events[n], orders[n], outcome, n)
  }

  /** Handling one more event, the k-th, extends the registry and the closed set by that event's effect. */
  lemma PrefixStep(clients: map<Conn, string>, events: seq<WsPayload>, outcome: (nat, Conn) -> bool, k: nat)
    requires k < |events|
    ensures RegistryAfter(clients, events[..k + 1], outcome)
              == Step(RegistryAfter(clients, events[..k], outcome), events[k], outcome, k)
    ensures ClosedAfter(clients, events[..k + 1], outcome)
              == ClosedAfter(clients, events[..k], outcome)
                 + ClosedBy(RegistryAfter(clients, events[..k], outcome), events[k], outcome, k)
  {
    assert events[..k + 1][..k] == events[..k];
  }

  /**
   * The hub's clients, closed set and write log are those of the dispatch loop
   * after the first k of `events`, started from `start`, `closed0` and
   * `writes0`, each broadcast so far having visited its clients in `orders`.
   */
  ghost predicate Replayed(start: map<Conn, string>, closed0: set<Conn>, writes0: seq<Write>,
                           events: seq<WsPayload>, outcome: (nat, Conn) -> bool, k: nat, orders: seq<seq<Conn>>,
                           clients: map<Conn, string>, closed: set<Conn>, writes: seq<Write>)
  {
    && k <= |events| && |orders| == k
    && clients == RegistryAfter(start, events[..k], outcome)
    && closed == closed0 + ClosedAfter(start, events[..k], outcome)
    && (forall j :: 0 <= j < k ==> OrderFits(orders[j], RegistryAfter(start, events[..j], outcome), events[j]))
    && writes == writes0 + LogAfter(events[..k], orders, outcome)
  }

  /** Handling the k-th event as `Hub.HandleEvent` does extends a replay of k events to k + 1. */
  lemma ReplayStep(start: map<Conn, string>, closed0: set<Conn>, writes0: seq<Write>,
                   events: seq<WsPayload>, outcome: (nat, Conn) -> bool, k: nat, orders: seq<seq<Conn>>,
                   clients: map<Conn, string>, closed: set<Conn>, writes: seq<Write>,
                   order: seq<Conn>, clients': map<Conn, string>, closed': set<Conn>, writes': seq<Write>)
    requires Replayed(start, closed0, writes0, events, outcome, k, orders, clients, closed, writes)
    requires k < |events|
    requires OrderFits(order, clients, events[k])
    requires clients' == Step(clients, events[k], outcome, k)
    requires closed' == closed + ClosedBy(clients, events[k], outcome, k)
    requires writes' == writes + EventLog(events[k], order, outcome, k)
    ensures Replayed(start, closed0, writes0, events, outcome, k + 1, orders + [order], clients', closed', writes')
  {
    PrefixStep(start, events, outcome, k);
    LogStep(writes0, events, orders, order, outcome, k);
    OrdersStep(start, events, outcome, k, orders, order);
  }

  /** The k-th event's writes extend the log of the first k events to the log of k + 1. */
  lemma LogStep(writes0: seq<Write>, events: seq<WsPayload>, orders: seq<seq<Conn>>, order: seq<Conn>,
                outcome: (nat, Conn) -> bool, k: nat)
    requires k < |events| && |orders| == k
    ensures writes0 + LogAfter(events[..k], orders, outcome) + EventLog(events[k], order, outcome, k)
            == writes0 + LogAfter(events[..k + 1], orders + [order], outcome)
  {
    assert events[..k + 1][..k] == events[..k];
    assert (orders + [order])[..k] == orders;
    Associative(writes0, LogAfter(events[..k], orders, outcome), EventLog(events[k], order, outcome, k));
  }

  /** A visit order that fits the k-th event extends orders fitting the first k events. */
  lemma OrdersStep(start: map<Conn, string>, events: seq<WsPayload>, outcome: (nat, Conn) -> bool, k: nat,
                   orders: seq<seq<Conn>>, order: seq<Conn>)
    requires k < |events| && |orders| == k
    requires forall j :: 0 <= j < k ==> OrderFits(orders[j], RegistryAfter(start, events[..j], outcome), events[j])
    requires OrderFits(order, RegistryAfter(start, events[..k], outcome), events[k])
    ensures forall j :: 0 <= j < k + 1 ==>
              OrderFits((orders + [order])[j], RegistryAfter(start, events[..j], outcome), events[j])
  {
    forall j | 0 <= j < k + 1
      ensures OrderFits((orders + [order])[j], RegistryAfter(start, events[..j], outcome), events[j])
    {
      if j < k {
        assert (orders + [order])[j] == orders[j];
      }
    }
  }

  /** Before any event the replay is the starting state. */
  lemma ReplayStart(start: map<Conn, string>, closed0: set<Conn>, writes0: seq<Write>,
                    events: seq<WsPayload>, outcome: (nat, Conn) -> bool)
    ensures Replayed(start, closed0, writes0, events, outcome, 0, [], start, closed0, writes0)
  {
    assert events[..0] == [];
  }

  /** A replay of every event gives the loop's final state. */
  lemma ReplayDone(start: map<Conn, string>, closed0: set<Conn>, writes0: seq<Write>,
                   events: seq<WsPayload>, outcome: (nat, Conn) -> bool, orders: seq<seq<Conn>>,
                   clients: map<Conn, string>, closed: set<Conn>, writes: seq<Write>)
    requires Replayed(start, closed0, writes0, events, outcome, |events|, orders, clients, closed, writes)
    ensures clients == RegistryAfter(start, events, outcome)
    ensures closed == closed0 + ClosedAfter(start, events, outcome)
    ensures |orders| == |events|
    ensures forall k :: 0 <= k < |orders| ==> OrderFits(orders[k], RegistryAfter(start, events[..k], outcome), events[k])
    ensures writes == writes0 + LogAfter(events, orders, outcome)
  {
    assert events[..|events|] == events;
  }

  /** Concatenation of sequences is associative. */
  lemma Associative<T>(a: seq<T>, b: seq<T>, c: seq<T>)
    ensures a + b + c == a + (b + c)
  {
  }

  /** Handling events never adds a client and never relabels one. */
  lemma {:induction false} RegistryAfterShrinks(clients: map<Conn, string>, events: seq<WsPayload>,
                                                 outcome: (nat, Conn) -> bool)
    ensures RegistryAfter(clients, events, outcome).Keys <= clients.Keys
    ensures forall c :: c in RegistryAfter(clients, events, outcome) ==>
              RegistryAfter(clients, events, outcome)[c] == clients[c]
    decreases |events|
  {
    if events != [] {
      RegistryAfterShrinks(clients, events[..|events| - 1], outcome);
    }
  }

  /** Events other than "deleteUser" broadcast nothing, close nothing and leave the registry as it was. */
  lemma {:induction false} NoDeleteIsSilent(clients: map<Conn, string>, events: seq<WsPayload>,
                                             orders: seq<seq<Conn>>, outcome: (nat, Conn) -> bool)
    requires |orders| == |events|
    requires forall i :: 0 <= i < |events| ==> events[i].action != "deleteUser"
    ensures RegistryAfter(clients, events, outcome) == clients
    ensures ClosedAfter(clients, events, outcome) == {}
    ensures LogAfter(events, orders, outcome) == []
    decreases |events|
  {
    if events != [] {
      var n := |events| - 1;
      NoDeleteIsSilent(clients, events[..n], orders[..n], outcome);
    }
  }

  /**
   * Every write the dispatch loop makes is the logout message for the user of
   * some "deleteUser" event.
   */
  lemma {:induction false} OnlyLogoutsBroadcast(events: seq<WsPayload>, orders: seq<seq<Conn>>,
                                                 outcome: (nat, Conn) -> bool)
    requires |orders| == |events|
    ensures forall i :: 0 <= i < |LogAfter(events, orders, outcome)| ==>
              var w := LogAfter(events, orders, outcome)[i];
              && w.response.action == "logout" && w.response.message == "Your account has been deleted"
              && exists k :: 0 <= k < |events| && events[k].action == "deleteUser" && w.response.userId == events[k].userId
    decreases |events|
  {
    if events != [] {
      var n := |events| - 1;
      var front := LogAfter(events[..n], orders[..n], outcome);
      OnlyLogoutsBroadcast(events[..n], orders[..n], outcome);
      var log := LogAfter(events, orders, outcome);
      forall i | 0 <= i < |log|
        ensures log[i].response.action == "logout" && log[i].response.message == "Your account has been deleted"
        ensures exists k :: 0 <= k < |events| && events[k].action == "deleteUser" && log[i].response.userId == events[k].userId
      {
        if i < |front| {
          assert log[i] == front[i];
          var k :| 0 <= k < n && events[..n][k].action == "deleteUser" && front[i].response.userId == events[..n][k].userId;
          assert events[k] == events[..n][k];
        } else {
          assert Dispatch(events[n]).Some?;
          assert events[n].action == "deleteUser" && log[i].response.userId == events[n].userId;
        }
      }
    }
  }

  /** Whether `log` holds a failed write to `c`. */
  predicate FailedWriteTo(log: seq<Write>, c: Conn)
  {
    exists i :: 0 <= i < |log| && log[i].conn == c && !log[i].ok
  }

  /** For one event, the clients it closes are those its log shows a failed write to. */
  lemma EventClosesFailed(clients: map<Conn, string>, e: WsPayload, order: seq<Conn>,
                          outcome: (nat, Conn) -> bool, k: nat, c: Conn)
    requires OrderFits(order, clients, e)
    ensures c in ClosedBy(clients, e, outcome, k) <==> FailedWriteTo(EventLog(e, order, outcome, k), c)
  {
    if Dispatch(e).Some? {
      var log := EventLog(e, order, outcome, k);
      if c in ClosedBy(clients, e, outcome, k) {
        assert c in (set x | x in order);
        var i :| 0 <= i < |order| && order[i] == c;
        assert log[i].conn == c && !log[i].ok;
      }
      if FailedWriteTo(log, c) {
        var i :| 0 <= i < |log| && log[i].conn == c && !log[i].ok;
        assert order[i] in (set x | x in order);
      }
    }
  }

  /**
   * With visit orders that fit, the dispatch loop closes exactly the clients
   * its write log shows a failed write to.
   */
  lemma {:induction false} ClosedIffWriteFailed(start: map<Conn, string>, events: seq<WsPayload>,
                                                 orders: seq<seq<Conn>>, outcome: (nat, Conn) -> bool, c: Conn)
    requires |orders| == |events|
    requires forall j :: 0 <= j < |events| ==>
               OrderFits(orders[j], RegistryAfter(start, events[..j], outcome), events[j])
    ensures c in ClosedAfter(start, events, outcome) <==> FailedWriteTo(LogAfter(events, orders, outcome), c)
    decreases |events|
  {
    if events != [] {
      var n := |events| - 1;
      OrdersPrefix(start, events, orders, outcome, n);
      ClosedIffWriteFailed(start, events[..n], orders[..n], outcome, c);
      EventClosesFailed(RegistryAfter(start, events[..n], outcome), events[n], orders[n], outcome, n, c);
      FailedWriteToConcat(LogAfter(events[..n], orders[..n], outcome), EventLog(events[n], orders[n], outcome, n), c);
    }
  }

  /** Visit orders that fit a sequence of events fit each of its prefixes. */
  lemma OrdersPrefix(start: map<Conn, string>, events: seq<WsPayload>, orders: seq<seq<Conn>>,
                     outcome: (nat, Conn) -> bool, n: nat)
    requires |orders| == |events| && n <= |events|
    requires forall j :: 0 <= j < |events| ==>
               OrderFits(orders[j], RegistryAfter(start, events[..j], outcome), events[j])
    ensures forall j :: 0 <= j < n ==>
              OrderFits(orders[..n][j], RegistryAfter(start, events[..n][..j], outcome), events[..n][j])
  {
    forall j | 0 <= j < n
      ensures OrderFits(orders[..n][j], RegistryAfter(start, events[..n][..j], outcome), events[..n][j])
    {
      assert events[..n][..j] == events[..j];
    }
  }

  lemma FailedWriteToConcat(front: seq<Write>, back: seq<Write>, c: Conn)
    ensures FailedWriteTo(front + back, c) <==> FailedWriteTo(front, c) || FailedWriteTo(back, c)
  {
    if FailedWriteTo(front, c) {
      var i :| 0 <= i < |front| && front[i].conn == c && !front[i].ok;
      assert (front + back)[i] == front[i];
    }
    if FailedWriteTo(back, c) {
      var i :| 0 <= i < |back| && back[i].conn == c && !back[i].ok;
      assert (front + back)[|front| + i] == back[i];
    }
  }

  /** A client whose every write succeeds stays registered with its label and is never closed. */
  lemma {:induction false} HealthyClientStays(clients: map<Conn, string>, events: seq<WsPayload>,
                                               outcome: (nat, Conn) -> bool, c: Conn)
    requires c in clients
    requires forall j: nat :: j < |events| ==> outcome(j, c)
    ensures c in RegistryAfter(clients, events, outcome)
    ensures RegistryAfter(clients, events, outcome)[c] == clients[c]
    ensures c !in ClosedAfter(clients, events, outcome)
    decreases |events|
  {
    if events != [] {
      HealthyClientStays(clients, events[..|events| - 1], outcome, c);
    }
  }

  class Hub {
    /** Registered clients and their labels. */
    var clients: map<Conn, string>
    /** Events read from clients and not yet dispatched, oldest first. */
    var channel: seq<WsPayload>
    /** Connections the hub has closed. */
    var closed: set<Conn>
    /** Every write the hub has attempted, in order. */
    var writes: seq<Write>

    constructor()
      ensures clients == map[] && channel == [] && closed == {} && writes == []
    {
      clients := map[];
      channel := [];
      closed := {};
      writes := [];
    }

    /**
     * `WsEndPoint`: after a successful upgrade, greet the client; register it
     * with the empty label only when the greeting was written.
     */
    method WsEndPoint(conn: Conn, upgraded: bool, greetingOk: bool) returns (registered: bool)
      modifies this
      ensures registered <==> upgraded && greetingOk
      ensures registered ==> clients == old(clients)[conn := ""]
      ensures !registered ==> clients == old(clients)
      ensures upgraded ==> writes == old(writes) + [Write(conn, Greeting, greetingOk)]
      ensures !upgraded ==> writes == old(writes)
      ensures channel == old(channel) && closed == old(closed)
    {
      if !upgraded {
        return false;
      }
      writes := writes + [Write(conn, Greeting, greetingOk)];
      if !greetingOk {
        return false;
      }
      clients := clients[conn := ""];
      registered := true;
    }

    /**
     * `ListenForWS`: push each payload read from `conn` onto the channel, in
     * read order and tagged with `conn`, until the first failed read.
     */
    method ListenForWS(conn: Conn, inbox: seq<Read>)
      modifies this
      ensures channel == old(channel) + Forwarded(inbox, conn)
      ensures clients == old(clients) && closed == old(closed) && writes == old(writes)
    {
      var i := 0;
      while i < |inbox|
        invariant 0 <= i <= |inbox|
        invariant forall j :: 0 <= j < i ==> inbox[j].Received?
        invariant |channel| == |old(channel)| + i
        invariant channel[..|old(channel)|] == old(channel)
        invariant forall j :: 0 <= j < i ==> channel[|old(channel)| + j] == inbox[j].payload.(conn := conn)
        invariant clients == old(clients) && closed == old(closed) && writes == old(writes)
      {
        if inbox[i].ReadFailed? {
          break;
        }
        channel := channel + [inbox[i].payload.(conn := conn)];
        i := i + 1;
      }
      ghost var ps := Forwarded(inbox, conn);
      assert |ps| == i;
      assert channel == old(channel) + ps;
    }

    /**
     * `broadcastToAll`: try one write to every registered client; a client
     * whose write fails is closed and removed.
     */
    method BroadcastToAll(response: WsJsonResponse, writeOk: Conn -> bool) returns (attempted: seq<Conn>)
      modifies this
      ensures Distinct(attempted) && (set c | c in attempted) == old(clients).Keys
      ensures clients == Survivors(old(clients), writeOk)
      ensures closed == old(closed) + (set c | c in old(clients) && !writeOk(c))
      ensures writes == old(writes) + Attempts(attempted, response, writeOk)
      ensures channel == old(channel)
    {
      ghost var start, closed0, writes0 := clients, closed, writes;
      var pending := clients.Keys;
      attempted := [];
      while pending != {}
        invariant Broadcasting(start, closed0, writes0, response, writeOk, pending, attempted, clients, closed, writes)
        invariant channel == old(channel)
        decreases pending
      {
        var c :| c in pending;
        BroadcastStep(start, closed0, writes0, response, writeOk, pending, attempted, clients, closed, writes, c);
        writes := writes + [Write(c, response, writeOk(c))];
        if !writeOk(c) {
          closed := closed + {c};
          clients := clients - {c};
        }
        attempted := attempted + [c];
        pending := pending - {c};
      }
      BroadcastDone(start, closed0, writes0, response, writeOk, attempted, clients, closed, writes);
    }

    /**
     * One pass of the `ListenToWsChannel` loop for the k-th event: answer it
     * by the dispatch rule, broadcasting the answer if there is one. Returns
     * the order in which the broadcast visited the clients.
     */
    method HandleEvent(e: WsPayload, outcome: (nat, Conn) -> bool, k: nat) returns (order: seq<Conn>)
      modifies this
      ensures OrderFits(order, old(clients), e)
      ensures clients == Step(old(clients), e, outcome, k)
      ensures closed == old(closed) + ClosedBy(old(clients), e, outcome, k)
      ensures writes == old(writes) + EventLog(e, order, outcome, k)
      ensures channel == old(channel)
    {
      order := [];
      var response := Dispatch(e);
      if response.Some? {
        order := BroadcastToAll(response.value, WritesOf(outcome, k));
      }
    }

    /**
     * `ListenToWsChannel`: take events off the channel in order and broadcast
     * the dispatch rule's answer, if any; the writes of the broadcast for the
     * k-th event succeed where `outcome(k, _)` holds. Returns, per event, the
     * order in which its broadcast visited the clients.
     */
    method ListenToWsChannel(outcome: (nat, Conn) -> bool) returns (orders: seq<seq<Conn>>)
      modifies this
      ensures channel == []
      ensures clients == RegistryAfter(old(clients), old(channel), outcome)
      ensures closed == old(closed) + ClosedAfter(old(clients), old(channel), outcome)
      ensures |orders| == |old(channel)|
      ensures forall k :: 0 <= k < |orders| ==>
                OrderFits(orders[k], RegistryAfter(old(clients), old(channel)[..k], outcome), old(channel)[k])
      ensures writes == old(writes) + LogAfter(old(channel), orders, outcome)
    {
      ghost var events, start, closed0, writes0 := channel, clients, closed, writes;
      var k: nat := 0;
      orders := [];
      ReplayStart(start, closed0, writes0, events, outcome);
      while channel != []
        invariant k <= |events| && channel == events[k..]
        invariant Replayed(start, closed0, writes0, events, outcome, k, orders, clients, closed, writes)
        decreases |channel|
      {
        var e := channel[0];
        assert e == events[k];
        ghost var clients0, closed1, writes1 := clients, closed, writes;
        channel := channel[1..];
        var order := HandleEvent(e, outcome, k);
        ReplayStep(start, closed0, writes0, events, outcome, k, orders, clients0, closed1, writes1,
                   order, clients, closed, writes);
        orders := orders + [order];
        k := k + 1;
      }
      ReplayDone(start, closed0, writes0, events, outcome, orders, clients, closed, writes);
    }
  }
}
