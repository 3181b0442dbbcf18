/** The relay and its tunnels together: every Send the relay begins is a call on its
    client's connection, and returns what that call comes to. So what a row records was
    answered by the local application, to a request that carries that row. */
module EndToEnd {
  import opened Wrappers
  import opened Message
  import opened Store
  import opened Relay
  import opened RelayProofs
  import opened RelayTheorems
  import Decimal
  import Tunnel
  import TunnelProofs
  import TunnelTheorems

  /** Every client's connection, as the tunnel machine; calls are named by the Sends. */
  datatype World = World(relay: State, conns: map<ClientId, Tunnel.State>)

  datatype Move = Server(step: Step) | Conn(client: ClientId, turn: Tunnel.Step)

  /** The n-th Send came back from its connection with this outcome. */
  predicate CameBack(sends: seq<SendRecord>, conns: map<ClientId, Tunnel.State>, n: nat, outcome: Option<Response>) {
    && n < |sends| && sends[n].client in conns && n in conns[sends[n].client].senders
    && var call := conns[sends[n].client].senders[n];
       call.Finished? && outcome == if call.result.Reply? then Some(call.result.resp) else None
  }

  predicate ConnClosed(conns: map<ClientId, Tunnel.State>, client: ClientId) {
    client in conns && conns[client].closed && !conns[client].closing
  }

  /** What a server step needs of the connections: a Send ends when its call has, and a
      client counts as closed when its connection is. */
  predicate Fits(w: World, step: Step) {
    match step
    case Act(_, _, EndSend(n, outcome)) => CameBack(w.relay.sh.sends, w.conns, n, outcome)
    case Act(_, _, PayClose(client)) => ConnClosed(w.conns, client)
    case Act(_, _, CloseClient(client)) => ConnClosed(w.conns, client)
    case Environment(CloseClient(client)) => ConnClosed(w.conns, client)
    case _ => true
  }

  ghost predicate May(c: Config, w: World, move: Move) {
    match move
    case Server(step) => Enabled(c, w.relay, step) && Fits(w, step)
    case Conn(client, step) => client in w.conns && !step.Call? && Tunnel.Enabled(w.conns[client], step)
  }

  /** The n-th Send begins: its call, on its client's connection. */
  function Called(conns: map<ClientId, Tunnel.State>, n: nat, rec: SendRecord): map<ClientId, Tunnel.State> {
    if rec.client in conns && n !in conns[rec.client].senders
    then conns[rec.client := Tunnel.Apply(conns[rec.client], Tunnel.Call(n, rec.req))] else conns
  }

  /** The connection is cut: what is left of Close is done. */
  function Dropped(conn: Tunnel.State): Tunnel.State {
    var closed := if conn.closed then conn else Tunnel.Apply(conn, Tunnel.BeginClose);
    if closed.closing then Tunnel.Apply(closed, Tunnel.EndClose) else closed
  }

  /** A restart of the server cuts every connection. */
  function ConnsAfter(w: World, step: Step): map<ClientId, Tunnel.State> {
    match step
    case Act(_, _, BeginSend(rec)) => Called(w.conns, |w.relay.sh.sends|, rec)
    case Act(_, _, Register(_, client)) => w.conns[client := Tunnel.INITIAL]
    case Restart => AllDropped(w.conns)
    case _ => w.conns
  }

  function After(w: World, move: Move): World {
    match move
    case Server(step) => World(Apply(w.relay, step), ConnsAfter(w, step))
    case Conn(client, step) =>
      if client in w.conns && Tunnel.Enabled(w.conns[client], step)
      then w.(conns := w.conns[client := Tunnel.Apply(w.conns[client], step)]) else w
  }

  ghost predicate MovesFrom(c: Config, w: World, moves: seq<Move>)
    decreases |moves|
  {
    moves == [] || (May(c, w, moves[0]) && MovesFrom(c, After(w, moves[0]), moves[1..]))
  }

  function End(w: World, moves: seq<Move>): World
    decreases |moves|
  {
    if moves == [] then w else End(After(w, moves[0]), moves[1..])
  }

  const START := World(INITIAL, map[])

  ghost predicate WorldReached(c: Config, w: World) {
    exists moves :: MovesFrom(c, START, moves) && w == End(START, moves)
  }

  // ---- what the two sides know of each other ----

  /** Call n of this connection is the n-th Send, with its request. */
  predicate CallIsSend(sends: seq<SendRecord>, client: ClientId, conn: Tunnel.State, n: nat) {
    && n < |sends| && sends[n].client == client && n in conn.senders
    && TunnelTheorems.Content(conn.senders[n].req) == TunnelTheorems.Content(sends[n].req.WithType())
  }

  ghost predicate ConnOk(sends: seq<SendRecord>, client: ClientId, conn: Tunnel.State) {
    TunnelTheorems.Reachable(conn) && forall n | n in conn.senders :: CallIsSend(sends, client, conn, n)
  }

  ghost predicate ConnsOk(sends: seq<SendRecord>, conns: map<ClientId, Tunnel.State>) {
    forall client | client in conns :: ConnOk(sends, client, conns[client])
  }

  ghost predicate ReturnsOk(sends: seq<SendRecord>, returned: set<(nat, Response)>,
      conns: map<ClientId, Tunnel.State>) {
    forall n, resp | (n, resp) in returned :: CameBack(sends, conns, n, Some(resp))
  }

  /** Every Send is a call on its client's connection. */
  predicate SendsAreCalls(sends: seq<SendRecord>, conns: map<ClientId, Tunnel.State>) {
    forall n | 0 <= n < |sends| :: sends[n].client in conns && n in conns[sends[n].client].senders
  }

  /** A client that the relay counts as closed has a closed connection. */
  predicate ClosedOk(closed: set<ClientId>, conns: map<ClientId, Tunnel.State>) {
    forall client | client in closed :: ConnClosed(conns, client)
  }

  ghost predicate WorldInv(c: Config, w: World) {
    && Reached(c, w.relay)
    && w.conns.Keys == w.relay.sh.clients.Keys
    && SendsAreCalls(w.relay.sh.sends, w.conns)
    && ConnsOk(w.relay.sh.sends, w.conns)
    && ReturnsOk(w.relay.sh.sends, w.relay.sh.returned, w.conns)
    && ClosedOk(w.relay.sh.closed, w.conns)
  }

  // ---- a connection moves ----

  lemma {:induction false} ConnStep(conn: Tunnel.State, step: Tunnel.Step)
    requires TunnelTheorems.Reachable(conn) && Tunnel.Enabled(conn, step)
    ensures TunnelTheorems.Reachable(Tunnel.Apply(conn, step))
  {
    hide Tunnel.Enabled, Tunnel.Apply;
    var steps :| Tunnel.ValidRun(Tunnel.INITIAL, steps) && Tunnel.Run(Tunnel.INITIAL, steps) == conn;
    assert [step][0] == step && [step][1..] == [];
    assert Tunnel.ValidRun(Tunnel.Apply(conn, step), []);
    assert Tunnel.ValidRun(conn, [step]) && Tunnel.Run(conn, [step]) == Tunnel.Apply(conn, step);
    TunnelTheorems.RunConcat(Tunnel.INITIAL, steps, [step]);
  }

  /** No call appears by itself, and a finished one stays as it is. */
  lemma {:induction false} CallsStay(conn: Tunnel.State, step: Tunnel.Step)
    requires Tunnel.Enabled(conn, step) && !step.Call?
    ensures var next := Tunnel.Apply(conn, step);
            && next.senders.Keys == conn.senders.Keys
            && (forall n | n in conn.senders && conn.senders[n].Finished? :: next.senders[n] == conn.senders[n])
  {
    hide Decimal.FormatUint, Tunnel.ClientReply;
  }

  lemma {:induction false} ConnKeepsCalls(sends: seq<SendRecord>, client: ClientId, conn: Tunnel.State,
      step: Tunnel.Step)
    requires ConnOk(sends, client, conn) && Tunnel.Enabled(conn, step) && !step.Call?
    ensures ConnOk(sends, client, Tunnel.Apply(conn, step))
  {
    hide Tunnel.Apply, Tunnel.Enabled, TunnelTheorems.Reachable, TunnelTheorems.Content;
    ConnStep(conn, step);
    CallsStay(conn, step);
    var next := Tunnel.Apply(conn, step);
    forall n | n in next.senders ensures CallIsSend(sends, client, next, n) {
      assert n in next.senders.Keys && CallIsSend(sends, client, conn, n);
      TunnelTheorems.ContentStep(conn, step, n);
    }
  }

  lemma {:induction false} ConnMoved(c: Config, w: World, client: ClientId, step: Tunnel.Step)
    requires WorldInv(c, w) && May(c, w, Conn(client, step))
    ensures WorldInv(c, After(w, Conn(client, step)))
  {
    hide Reached, ConnOk, Tunnel.Apply, Tunnel.Enabled;
    ConnKeepsCalls(w.relay.sh.sends, client, w.conns[client], step);
    CallsStay(w.conns[client], step);
    var conns := After(w, Conn(client, step)).conns;
    forall n, resp | (n, resp) in w.relay.sh.returned ensures CameBack(w.relay.sh.sends, conns, n, Some(resp)) {
      assert CameBack(w.relay.sh.sends, w.conns, n, Some(resp));
      if w.relay.sh.sends[n].client == client { assert n in conns[client].senders.Keys; }
    }
    forall n | 0 <= n < |w.relay.sh.sends| ensures n in conns[w.relay.sh.sends[n].client].senders {
      if w.relay.sh.sends[n].client == client { assert n in conns[client].senders.Keys; }
    }
    assert conns.Keys == w.conns.Keys;
    ConnStaysClosed(c, w, client, step);
  }

  lemma {:induction false} ConnStaysClosed(c: Config, w: World, client: ClientId, step: Tunnel.Step)
    requires WorldInv(c, w) && May(c, w, Conn(client, step))
    ensures ClosedOk(w.relay.sh.closed, After(w, Conn(client, step)).conns)
  {
    hide Reached, Tunnel.Apply, Tunnel.Enabled, TunnelTheorems.Reachable, ReturnsOk, SendsAreCalls;
    assert ConnOk(w.relay.sh.sends, client, w.conns[client]);
    if client in w.relay.sh.closed {
      assert ConnClosed(w.conns, client);
      TunnelTheorems.ClosedForGood(w.conns[client], step);
    }
    var conns := After(w, Conn(client, step)).conns;
    forall other | other in w.relay.sh.closed ensures ConnClosed(conns, other) {
      assert ConnClosed(w.conns, other);
    }
  }

  // ---- the server moves ----

  /** Cutting a connection touches none of its calls. */
  lemma {:induction false} DropKeeps(sends: seq<SendRecord>, client: ClientId, conn: Tunnel.State)
    requires ConnOk(sends, client, conn)
    ensures var next := Dropped(conn);
            ConnOk(sends, client, next) && next.senders == conn.senders && next.closed && !next.closing
  {
    if !conn.closed { ConnStep(conn, Tunnel.BeginClose); }
    var closed := if conn.closed then conn else Tunnel.Apply(conn, Tunnel.BeginClose);
    if closed.closing { ConnStep(closed, Tunnel.EndClose); }
    hide TunnelTheorems.Reachable;
    forall n | n in conn.senders ensures CallIsSend(sends, client, Dropped(conn), n) {
      assert CallIsSend(sends, client, conn, n);
    }
  }

  lemma {:induction false} RestartCuts(c: Config, w: World)
    requires WorldInv(c, w)
    ensures WorldInv(c, After(w, Server(Restart)))
  {
    ReachedOn(c, w.relay, Restart);
    hide Reached, ConnsOk, ReturnsOk, SendsAreCalls, ConnClosed;
    var conns := ConnsAfter(w, Restart);
    DropsKeep(w.relay.sh.sends, w.relay.sh.returned, w.conns);
    forall client | client in w.relay.sh.closed + w.relay.sh.clients.Keys ensures ConnClosed(conns, client) {
      if client in w.relay.sh.closed { ClosedIsThere(w.conns, client); }
    }
  }

  lemma {:induction false} ClosedIsThere(conns: map<ClientId, Tunnel.State>, client: ClientId)
    requires ConnClosed(conns, client)
    ensures client in conns
  {
  }

  function AllDropped(conns: map<ClientId, Tunnel.State>): map<ClientId, Tunnel.State> {
    map client | client in conns :: Dropped(conns[client])
  }

  lemma {:induction false} DropsKeep(
      sends: seq<SendRecord>, returned: set<(nat, Response)>, conns: map<ClientId, Tunnel.State>)
    requires ConnsOk(sends, conns) && ReturnsOk(sends, returned, conns) && SendsAreCalls(sends, conns)
    ensures var next := AllDropped(conns);
            && next.Keys == conns.Keys && ConnsOk(sends, next) && ReturnsOk(sends, returned, next)
            && SendsAreCalls(sends, next) && forall client | client in conns :: ConnClosed(next, client)
  {
    hide ConnOk, Dropped;
    var next := AllDropped(conns);
    forall client | client in conns
      ensures ConnOk(sends, client, next[client]) && next[client].senders == conns[client].senders
      ensures next[client].closed && !next[client].closing
    {
      DropKeeps(sends, client, conns[client]);
    }
    assert next.Keys == conns.Keys;
    forall n, resp | (n, resp) in returned ensures CameBack(sends, next, n, Some(resp)) {
      assert CameBack(sends, conns, n, Some(resp));
    }
  }

  /** A step that counts a client as closed finds its connection closed. */
  lemma {:induction false} StepKeepsClosed(sh: Shared, pid: Pid, e: Effect, conns: map<ClientId, Tunnel.State>)
    requires ClosedOk(sh.closed, conns) && !e.BeginSend? && !e.Register?
    requires e.PayClose? || e.CloseClient? ==> ConnClosed(conns, e.client)
    ensures ClosedOk(ApplyEffect(sh, pid, e).closed, conns)
  {
    hide ConnClosed, AfterSave, AfterMark;
  }

  lemma {:induction false} NewConnsKeepClosed(
      sh: Shared, pid: Pid, e: Effect, conns: map<ClientId, Tunnel.State>, conns': map<ClientId, Tunnel.State>)
    requires ClosedOk(sh.closed, conns)
    requires || (e.BeginSend? && conns' == Called(conns, |sh.sends|, e.rec))
             || (e.Register? && e.client !in conns && conns' == conns[e.client := Tunnel.INITIAL])
    ensures ClosedOk(ApplyEffect(sh, pid, e).closed, conns')
  {
    if e.BeginSend? && e.rec.client in conns && |sh.sends| !in conns[e.rec.client].senders {
      CallAdds(conns[e.rec.client], |sh.sends|, e.rec.req);
    }
    hide Tunnel.Apply, Tunnel.Enabled;
    forall client | client in sh.closed ensures ConnClosed(conns', client) {
      assert ConnClosed(conns, client);
    }
  }

  /** A call adds itself and changes nothing else. */
  lemma {:induction false} CallAdds(conn: Tunnel.State, n: nat, req: Request)
    requires n !in conn.senders
    ensures Tunnel.Enabled(conn, Tunnel.Call(n, req))
    ensures Tunnel.Apply(conn, Tunnel.Call(n, req)) == conn.(senders := conn.senders[n := Tunnel.Begun(req.WithType())])
  {
  }

  lemma {:induction false} CallBegins(sends: seq<SendRecord>, conn: Tunnel.State, rec: SendRecord)
    requires ConnOk(sends, rec.client, conn) && |sends| !in conn.senders
    ensures var next := Tunnel.Apply(conn, Tunnel.Call(|sends|, rec.req));
            && ConnOk(sends + [rec], rec.client, next)
            && (forall n | n in conn.senders :: n in next.senders && next.senders[n] == conn.senders[n])
  {
    CallAdds(conn, |sends|, rec.req);
    ConnStep(conn, Tunnel.Call(|sends|, rec.req));
    hide TunnelTheorems.Reachable, Tunnel.Apply, Tunnel.Enabled;
    var next := Tunnel.Apply(conn, Tunnel.Call(|sends|, rec.req));
    forall n | n in next.senders ensures CallIsSend(sends + [rec], rec.client, next, n) {
      if n != |sends| { assert CallIsSend(sends, rec.client, conn, n); }
    }
  }

  lemma {:induction false} ConnStays(sends: seq<SendRecord>, more: seq<SendRecord>, client: ClientId,
      conn: Tunnel.State)
    requires ConnOk(sends, client, conn)
    ensures ConnOk(sends + more, client, conn)
  {
    hide TunnelTheorems.Reachable, TunnelTheorems.Content;
    forall n | n in conn.senders ensures CallIsSend(sends + more, client, conn, n) {
      assert CallIsSend(sends, client, conn, n);
    }
  }

  lemma {:induction false} SendBegins(sends: seq<SendRecord>, returned: set<(nat, Response)>,
      conns: map<ClientId, Tunnel.State>, rec: SendRecord)
    requires ConnsOk(sends, conns) && ReturnsOk(sends, returned, conns)
    ensures ConnsOk(sends + [rec], Called(conns, |sends|, rec))
            && ReturnsOk(sends + [rec], returned, Called(conns, |sends|, rec))
  {
    hide ConnOk, Tunnel.Apply;
    var conns' := Called(conns, |sends|, rec);
    forall client | client in conns ensures ConnOk(sends + [rec], client, conns'[client]) {
      ConnStays(sends, [rec], client, conns[client]);
      if client == rec.client && |sends| !in conns[client].senders { CallBegins(sends, conns[client], rec); }
    }
    forall n, resp | (n, resp) in returned ensures CameBack(sends + [rec], conns', n, Some(resp)) {
      assert CameBack(sends, conns, n, Some(resp));
      var client := sends[n].client;
      if client == rec.client && |sends| !in conns[client].senders { CallBegins(sends, conns[client], rec); }
    }
  }

  /** A Send that begins does get its call. */
  lemma {:induction false} SendIsCalled(sends: seq<SendRecord>, conns: map<ClientId, Tunnel.State>, rec: SendRecord)
    requires ConnsOk(sends, conns) && SendsAreCalls(sends, conns) && rec.client in conns
    ensures SendsAreCalls(sends + [rec], Called(conns, |sends|, rec))
    ensures Called(conns, |sends|, rec).Keys == conns.Keys
  {
    NoCallYet(sends, rec.client, conns[rec.client]);
    CallAdds(conns[rec.client], |sends|, rec.req);
    hide ConnsOk, ConnOk, Tunnel.Apply, Tunnel.Enabled;
    var conns' := Called(conns, |sends|, rec);
    forall n | 0 <= n < |sends| ensures sends[n].client in conns' && n in conns'[sends[n].client].senders {
      assert n in conns[sends[n].client].senders;
    }
  }

  lemma {:induction false} NoCallYet(sends: seq<SendRecord>, client: ClientId, conn: Tunnel.State)
    requires ConnOk(sends, client, conn)
    ensures |sends| !in conn.senders
  {
    hide TunnelTheorems.Reachable;
    assert forall n | n in conn.senders :: CallIsSend(sends, client, conn, n);
  }

  lemma {:induction false} Registers(
      sends: seq<SendRecord>, returned: set<(nat, Response)>, conns: map<ClientId, Tunnel.State>, client: ClientId)
    requires ConnsOk(sends, conns) && ReturnsOk(sends, returned, conns) && SendsAreCalls(sends, conns)
             && client !in conns
    ensures var conns' := conns[client := Tunnel.INITIAL];
            ConnsOk(sends, conns') && ReturnsOk(sends, returned, conns') && SendsAreCalls(sends, conns')
  {
    assert Tunnel.ValidRun(Tunnel.INITIAL, []) && Tunnel.Run(Tunnel.INITIAL, []) == Tunnel.INITIAL;
    assert ConnOk(sends, client, Tunnel.INITIAL);
    hide ConnOk;
    forall n, resp | (n, resp) in returned ensures CameBack(sends, conns[client := Tunnel.INITIAL], n, Some(resp)) {
      assert CameBack(sends, conns, n, Some(resp));
    }
  }

  lemma {:induction false} Returns(
      sends: seq<SendRecord>, returned: set<(nat, Response)>, conns: map<ClientId, Tunnel.State>, send: nat,
      resp: Response)
    requires ReturnsOk(sends, returned, conns) && CameBack(sends, conns, send, Some(resp))
    ensures ReturnsOk(sends, returned + {(send, resp)}, conns)
  {
    hide CameBack;
  }

  /** Effects that begin, end and register nothing leave both sides' shared history. */
  lemma {:induction false} HistoryStays(sh: Shared, pid: Pid, e: Effect)
    requires !e.BeginSend? && !e.EndSend? && !e.Register?
    ensures var sh' := ApplyEffect(sh, pid, e);
            sh'.sends == sh.sends && sh'.returned == sh.returned && sh'.clients == sh.clients
  {
  }

  /** What a process's Sends and registrations are like. */
  lemma {:induction false} ActIsSound(c: Config, s: State, pid: Pid, next: Proc, e: Effect)
    requires Reached(c, s) && Enabled(c, s, Act(pid, next, e))
    ensures e.BeginSend? ==> e.rec.client in s.sh.clients
    ensures e.Register? ==> e.client !in s.sh.clients
  {
    hide Reached, SharedInv, ProcOk, ProcStep;
    ReachedInv(c, s);
    assert ProcOk(c, s.sh, pid, s.procs[pid]);
    ProcGoesOn(c, s.sh, pid, s.procs[pid], next, e);
  }

  /** The three effects that the connections share in. */
  lemma {:induction false} ServerSends(
      sh: Shared, conns: map<ClientId, Tunnel.State>, pid: Pid, e: Effect, conns': map<ClientId, Tunnel.State>)
    requires conns.Keys == sh.clients.Keys && SendsAreCalls(sh.sends, conns)
    requires ConnsOk(sh.sends, conns) && ReturnsOk(sh.sends, sh.returned, conns)
    requires || (e.BeginSend? && e.rec.client in sh.clients && conns' == Called(conns, |sh.sends|, e.rec))
             || (e.EndSend? && CameBack(sh.sends, conns, e.send, e.outcome) && conns' == conns)
             || (e.Register? && e.client !in sh.clients && conns' == conns[e.client := Tunnel.INITIAL])
    ensures var sh' := ApplyEffect(sh, pid, e);
            && conns'.Keys == sh'.clients.Keys && SendsAreCalls(sh'.sends, conns')
            && ConnsOk(sh'.sends, conns') && ReturnsOk(sh'.sends, sh'.returned, conns')
  {
    hide ConnsOk, ReturnsOk, SendsAreCalls, Called, CameBack;
    if e.BeginSend? {
      assert e.rec.client in sh.clients.Keys;
      SendBegins(sh.sends, sh.returned, conns, e.rec);
      SendIsCalled(sh.sends, conns, e.rec);
    } else if e.EndSend? {
      if e.outcome.Some? { Returns(sh.sends, sh.returned, conns, e.send, e.outcome.value); }
    } else {
      assert e.client !in sh.clients.Keys;
      Registers(sh.sends, sh.returned, conns, e.client);
    }
  }

  lemma {:induction false} ServerActs(c: Config, w: World, pid: Pid, next: Proc, e: Effect)
    requires WorldInv(c, w) && May(c, w, Server(Act(pid, next, e)))
    ensures WorldInv(c, After(w, Server(Act(pid, next, e))))
  {
    var step := Act(pid, next, e);
    ReachedOn(c, w.relay, step);
    hide Reached, Enabled, ConnsOk, ReturnsOk, SendsAreCalls, Called, CameBack, ConnClosed;
    ActIsSound(c, w.relay, pid, next, e);
    if e.BeginSend? || e.EndSend? || e.Register? {
      ServerSends(w.relay.sh, w.conns, pid, e, ConnsAfter(w, step));
    } else {
      HistoryStays(w.relay.sh, pid, e);
    }
    hide ApplyEffect, ClosedOk;
    if e.BeginSend? || e.Register? {
      assert e.Register? ==> e.client !in w.relay.sh.clients.Keys;
      NewConnsKeepClosed(w.relay.sh, pid, e, w.conns, ConnsAfter(w, step));
    } else {
      StepKeepsClosed(w.relay.sh, pid, e, w.conns);
    }
  }

  lemma {:induction false} WorldMoves(c: Config, w: World, move: Move)
    requires WorldInv(c, w) && May(c, w, move)
    ensures WorldInv(c, After(w, move))
  {
    match move
    case Conn(client, step) => hide WorldInv, May; ConnMoved(c, w, client, step);
    case Server(step) =>
      if step.Act? {
        hide WorldInv, May;
        ServerActs(c, w, step.pid, step.next, step.e);
      } else if step.Restart? {
        hide WorldInv, May;
        RestartCuts(c, w);
      } else {
        ReachedOn(c, w.relay, step);
        hide Reached, ConnsOk, ReturnsOk, SendsAreCalls, Starts, ProcStep;
        if step.Environment? {
          HistoryStays(w.relay.sh, 0, step.e);
          StepKeepsClosed(w.relay.sh, 0, step.e, w.conns);
          hide ApplyEffect, ClosedOk;
        }
      }
  }

  lemma {:induction false} MovesKeepInv(c: Config, w: World, moves: seq<Move>)
    requires WorldInv(c, w) && MovesFrom(c, w, moves)
    ensures WorldInv(c, End(w, moves))
    decreases |moves|
  {
    hide WorldInv, May, After;
    if moves != [] {
      WorldMoves(c, w, moves[0]);
      MovesKeepInv(c, After(w, moves[0]), moves[1..]);
    }
  }

  lemma {:induction false} WorldReachedInv(c: Config, w: World)
    requires WorldReached(c, w)
    ensures WorldInv(c, w)
  {
    assert ValidRun(c, INITIAL, []) && Run(INITIAL, []) == INITIAL;
    assert WorldInv(c, START);
    hide WorldInv;
    var moves :| MovesFrom(c, START, moves) && w == End(START, moves);
    MovesKeepInv(c, START, moves);
  }

  /** In every run of the whole, a client that the relay counts as closed, and so every client
      of a handler that has ended, has a closed connection on which nothing is pending. */
  lemma {:induction false} ClosedClientsAreClosed(c: Config, w: World, client: ClientId)
    requires WorldReached(c, w) && client in w.relay.sh.closed
    ensures client in w.conns && w.conns[client].closed && w.conns[client].pending == map[]
  {
    hide WorldReached, Reached, TunnelTheorems.Reachable;
    WorldReachedInv(c, w);
    assert ConnClosed(w.conns, client) && ConnOk(w.relay.sh.sends, client, w.conns[client]);
    hide WorldInv;
    TunnelTheorems.ReachableOrder(w.conns[client]);
  }

  // ---- what rows and providers are told ----

  /** No connection has handed out more ids than its counter has. */
  predicate CountersFit(w: World) {
    forall client | client in w.conns :: w.conns[client].issued <= Tunnel.COUNTER_MODULUS
  }

  /** The local application answered with this status, and this is the beginning of the body
      it gave: all of it, or the first MiB. */
  predicate AnsweredKept(outcome: Option<Tunnel.LocalOutcome>, status: int, body: string) {
    && outcome.Some? && outcome.value.Answered? && outcome.value.status == status
    && body <= outcome.value.body
    && |body| == if |outcome.value.body| < 1_048_576 then |outcome.value.body| else 1_048_576
  }

  /** The client program of this row's token took the k-th request on its connection, which
      carries the row, and the local application answered it with this status and body. */
  predicate LocallyAnswered(w: World, row: Webhook, status: int, body: string, client: ClientId, k: nat) {
    && client in w.conns && client in w.relay.sh.clients && w.relay.sh.clients[client].token == row.token
    && k < |w.conns[client].sent| && k < |w.conns[client].handled|
    && Carries(w.conns[client].sent[k], row) && AnsweredKept(w.conns[client].handled[k], status, body)
  }

  /** The client program passes on what the local application answered, and only that gives a
      response a status; whatever else happens the response has status 0 and says why. */
  lemma {:induction false} StatusIsLocal(req: Request, outcome: Tunnel.LocalOutcome)
    ensures var resp := Tunnel.ClientReply(req, outcome);
            && resp.id == req.id && resp.kind == MESSAGE_RESPONSE
            && if outcome.Answered? then AnsweredKept(Some(outcome), resp.status, resp.body) && resp.error == ""
               else resp.status == 0 && resp.body == "" && resp.error == outcome.reason
  {
  }

  /** A response with a status is what the local application said to its call's request. */
  lemma {:induction false} CallAnswered(conn: Tunnel.State, n: nat, resp: Response) returns (k: nat)
    requires TunnelTheorems.Reached(conn)
    requires n in conn.senders && conn.senders[n].Finished? && conn.senders[n].result == Tunnel.Reply(resp)
             && resp.status != 0
    ensures k < |conn.sent| && k < |conn.handled| && conn.sent[k] == conn.senders[n].req
    ensures AnsweredKept(conn.handled[k], resp.status, resp.body)
  {
    hide TunnelTheorems.Reached, TunnelProofs.Inv, Tunnel.ClientReply;
    TunnelTheorems.ReachedInv(conn);
    TunnelTheorems.InvCorrelates(conn);
    var at :| TunnelTheorems.AnsweredBy(conn, n, at);
    k := at;
    StatusIsLocal(conn.sent[k], conn.handled[k].value);
  }

  lemma {:induction false} ConnIsReached(conn: Tunnel.State)
    requires TunnelTheorems.Reachable(conn) && conn.issued <= Tunnel.COUNTER_MODULUS
    ensures TunnelTheorems.Reached(conn)
  {
    hide Tunnel.ValidRun, Tunnel.Run;
  }

  lemma {:induction false} SendAnswered(c: Config, w: World, n: nat, resp: Response) returns (client: ClientId, k: nat)
    requires WorldReached(c, w) && CountersFit(w) && (n, resp) in w.relay.sh.returned && resp.status != 0
    ensures n < |w.relay.sh.sends| && w.relay.sh.sends[n].id in w.relay.sh.inserted
    ensures LocallyAnswered(w, w.relay.sh.inserted[w.relay.sh.sends[n].id], resp.status, resp.body, client, k)
  {
    hide WorldReached, Reached, TunnelTheorems.Reachable, TunnelTheorems.Reached;
    WorldReachedInv(c, w);
    var sh := w.relay.sh;
    assert CameBack(sh.sends, w.conns, n, Some(resp));
    SendsAreFaithful(c, w.relay, n);
    client := sh.sends[n].client;
    var conn := w.conns[client];
    assert ConnOk(sh.sends, client, conn) && CallIsSend(sh.sends, client, conn, n);
    ConnIsReached(conn);
    k := CallAnswered(conn, n, resp);
    hide ConnsOk, ReturnsOk, SendsAreCalls;
  }

  /** In every run of the whole, what a delivered row records was answered by the local
      application to a request carrying that very row, over a client of its token. */
  lemma {:induction false} RowsRecordLocalAnswers(c: Config, w: World, id: string)
    requires WorldReached(c, w) && CountersFit(w) && id in w.relay.sh.rows && !Pending(w.relay.sh.rows[id])
    ensures var row := w.relay.sh.rows[id];
            exists client, k :: LocallyAnswered(w, row, row.status, row.responseBody, client, k)
  {
    hide WorldReached, Reached, LocallyAnswered;
    WorldReachedInv(c, w);
    RowTellsLastMark(c, w.relay, id);
    var sh := w.relay.sh;
    var m := sh.marks[id][|sh.marks[id]| - 1];
    var client, k := SendAnswered(c, w, m.send, m.resp);
    ReachedInv(c, w.relay);
    RowIsKnown(c, sh, id);
    SameRowAnswered(w, sh.inserted[id], sh.rows[id], m.resp.status, m.resp.body, client, k);
  }

  lemma {:induction false} SameRowAnswered(w: World, a: Webhook, b: Webhook, status: int, body: string,
      client: ClientId, k: nat)
    requires SameRequest(a, b) && LocallyAnswered(w, a, status, body, client, k)
    ensures LocallyAnswered(w, b, status, body, client, k)
  {
  }

  /** A local answer given to a provider is what the local application said to a request
      carrying a row this request may be answered for. */
  lemma {:induction false} ProvidersGetLocalAnswers(
      c: Config, w: World, pid: Pid, d: Delivery, reply: Reply, holder: string, source: string)
    requires WorldReached(c, w) && CountersFit(w)
    requires pid in w.relay.procs && w.relay.procs[pid] == HookProc(HookAnswered(d, reply, holder, source))
             && reply.Local?
    ensures source in w.relay.sh.inserted && w.relay.sh.inserted[source].token == d.token
    ensures DeliveryOf(w.relay.sh.inserted[source]) == d
            || (c.dedup && w.relay.sh.inserted[source].dedupKey == KeyOf(c, d))
    ensures exists client, k :: LocallyAnswered(w, w.relay.sh.inserted[source], reply.status, reply.body, client, k)
  {
    hide WorldReached, Reached, LocallyAnswered, KeyOf;
    WorldReachedInv(c, w);
    LocalAnswersWereReturned(c, w.relay, pid, d, reply, holder, source);
    var sh := w.relay.sh;
    var n: nat, resp :| n < |sh.sends| && sh.sends[n].id == source && (n, resp) in sh.returned
                        && resp.status == reply.status && resp.body == reply.body;
    var client, k := SendAnswered(c, w, n, resp);
  }
}
