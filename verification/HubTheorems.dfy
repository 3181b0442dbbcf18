/** The life of hub entries over every run: who is registered, who is owed a Close, and
    that an entry does not outlive its handler. */
module HubTheorems {
  import opened Wrappers
  import opened Store
  import opened Hub
  import opened Relay
  import opened RelayProofs
  import opened RelayTheorems

  /** A current client belongs to a running handler that registered it. */
  ghost predicate HandlerInv(hub: map<string, ClientId>, clients: map<ClientId, Client>, procs: map<Pid, Proc>) {
    forall token | token in hub ::
        hub[token] in clients && Serves(procs, clients[hub[token]].handler, token, hub[token])
  }

  predicate Serves(procs: map<Pid, Proc>, pid: Pid, token: string, client: ClientId) {
    && pid in procs && procs[pid].TunnelProc? && !procs[pid].t.TunnelChecked?
    && procs[pid].t.token == token && procs[pid].t.client == client
  }

  lemma {:induction false} OnlyTunnelsRegister(c: Config, sh: Shared, p: Proc, p': Proc, e: Effect)
    requires ProcStep(c, sh, p, p', e) && !p.TunnelProc?
    ensures !e.Register? && !p'.TunnelProc?
  {
    hide HookStep, DrainStep, ReplayStep;
    match p
    case HookProc(h) => HookEffects(c, sh, h, p'.h, e);
    case DrainProc(d) => DrainEffects(sh, d, p'.d, e);
    case ReplayProc(r) => ReplayEffects(sh, r, p'.r, e);
    case _ =>
  }

  lemma {:induction false} EntriesShrink(sh: Shared, pid: Pid, e: Effect)
    requires !e.Register?
    ensures var sh' := ApplyEffect(sh, pid, e);
            sh'.clients == sh.clients && forall token | token in sh'.hub ::
                token in sh.hub && sh'.hub[token] == sh.hub[token]
  {
  }

  lemma {:induction false} TunnelRegisters(c: Config, s: State, pid: Pid, next: Proc, e: Effect)
    requires HandlerInv(s.sh.hub, s.sh.clients, s.procs) && pid in s.procs && s.procs[pid].TunnelProc? && e.Register?
    requires ProcStep(c, s.sh, s.procs[pid], next, e)
    ensures HandlerInv(Registered(s.sh.hub, e.token, e.client), s.sh.clients[e.client := Client(e.token, pid)],
            s.procs[pid := next])
  {
    hide HookStep, DrainStep, ReplayStep, DeleteStep;
  }

  lemma {:induction false} TunnelServes(c: Config, s: State, pid: Pid, next: Proc, e: Effect)
    requires HandlerInv(s.sh.hub, s.sh.clients, s.procs) && pid in s.procs && s.procs[pid].TunnelProc? && !e.Register?
    requires ProcStep(c, s.sh, s.procs[pid], next, e)
    ensures HandlerInv(s.sh.hub, s.sh.clients, s.procs[pid := next])
  {
    hide HookStep, DrainStep, ReplayStep, DeleteStep;
  }

  lemma {:induction false} OthersServe(hub: map<string, ClientId>, clients: map<ClientId, Client>,
      procs: map<Pid, Proc>, pid: Pid, next: Proc)
    requires HandlerInv(hub, clients, procs) && (pid in procs ==> !procs[pid].TunnelProc?)
    ensures HandlerInv(hub, clients, procs[pid := next])
  {
  }

  lemma {:induction false} FewerEntries(
      hub: map<string, ClientId>, hub': map<string, ClientId>, clients: map<ClientId, Client>, procs: map<Pid, Proc>)
    requires HandlerInv(hub, clients, procs) && forall token | token in hub' ::
             token in hub && hub'[token] == hub[token]
    ensures HandlerInv(hub', clients, procs)
  {
    hide Serves;
  }

  lemma {:induction false} HandlersAct(c: Config, s: State, pid: Pid, next: Proc, e: Effect)
    requires HandlerInv(s.sh.hub, s.sh.clients, s.procs) && Enabled(c, s, Act(pid, next, e))
    ensures var s' := Apply(s, Act(pid, next, e)); HandlerInv(s'.sh.hub, s'.sh.clients, s'.procs)
  {
    hide ProcStep, HandlerInv;
    if e.Register? {
      if !s.procs[pid].TunnelProc? { OnlyTunnelsRegister(c, s.sh, s.procs[pid], next, e); }
      TunnelRegisters(c, s, pid, next, e);
    } else {
      hide ApplyEffect;
      if s.procs[pid].TunnelProc? {
        TunnelServes(c, s, pid, next, e);
      } else {
        OthersServe(s.sh.hub, s.sh.clients, s.procs, pid, next);
      }
      EntriesShrink(s.sh, pid, e);
      FewerEntries(s.sh.hub, ApplyEffect(s.sh, pid, e).hub, s.sh.clients, s.procs[pid := next]);
    }
  }

  lemma {:induction false} HandlersKept(c: Config, s: State, step: Step)
    requires HandlerInv(s.sh.hub, s.sh.clients, s.procs) && Enabled(c, s, step)
    ensures var s' := Apply(s, step); HandlerInv(s'.sh.hub, s'.sh.clients, s'.procs)
  {
    match step
    case Spawn(pid, p) => hide Starts, HandlerInv; OthersServe(s.sh.hub, s.sh.clients, s.procs, pid, p);
    case Act(pid, next, e) => hide HandlerInv, Apply, Enabled; HandlersAct(c, s, pid, next, e);
    case Environment(e) =>
      hide ApplyEffect, HandlerInv;
      EntriesShrink(s.sh, 0, e);
      FewerEntries(s.sh.hub, ApplyEffect(s.sh, 0, e).hub, s.sh.clients, s.procs);
    case Restart =>
  }

  lemma {:induction false} HandlersInRun(c: Config, s: State, steps: seq<Step>)
    requires HandlerInv(s.sh.hub, s.sh.clients, s.procs) && ValidRun(c, s, steps)
    ensures var end := Run(s, steps); HandlerInv(end.sh.hub, end.sh.clients, end.procs)
    decreases |steps|
  {
    hide HandlerInv, Enabled, Apply;
    if steps != [] {
      HandlersKept(c, s, steps[0]);
      HandlersInRun(c, Apply(s, steps[0]), steps[1..]);
    }
  }

  lemma {:induction false} ReachedHandlers(c: Config, s: State)
    requires Reached(c, s)
    ensures HandlerInv(s.sh.hub, s.sh.clients, s.procs)
  {
    var steps :| ValidRun(c, INITIAL, steps) && s == Run(INITIAL, steps);
    hide ValidRun, Run;
    assert HandlerInv(INITIAL.sh.hub, INITIAL.sh.clients, INITIAL.procs);
    hide HandlerInv;
    HandlersInRun(c, INITIAL, steps);
  }

  /** An entry is a client of that very token, and the handler that registered it has
      not unregistered it yet. */
  lemma {:induction false} EntriesHaveHandlers(c: Config, s: State, token: string)
    requires Reached(c, s) && token in s.sh.hub
    ensures var (cl, sh) := (s.sh.hub[token], s.sh);
            && cl in sh.clients && sh.clients[cl].token == token && Serves(s.procs, sh.clients[cl].handler, token, cl)
            && !s.procs[sh.clients[cl].handler].t.TunnelDone?
  {
    hide Reached;
    ReachedInv(c, s);
    ReachedHandlers(c, s);
    CurrentIsKnown(c, s.sh, token);
    var cl := s.sh.hub[token];
    var pid := s.sh.clients[cl].handler;
    assert Serves(s.procs, pid, token, cl);
    assert ProcOk(c, s.sh, pid, s.procs[pid]);
    hide SharedInv;
  }

  /** Every client ever registered is its token's current one, or closed, or some running
      handler is about to close it. */
  lemma {:induction false} NoClientForgotten(c: Config, s: State, cl: ClientId)
    requires Reached(c, s) && cl in s.sh.clients
    ensures Current(s.sh.hub, s.sh.clients[cl].token) == Some(cl) || cl in s.sh.closed
            || exists pid :: pid in s.procs && Debt(s.procs[pid]) == Some(cl)
  {
    hide Reached;
    ReachedInv(c, s);
    assert HubInv(s.sh.hub, s.sh.clients, s.sh.closed, s.sh.owed);
    if cl in s.sh.owed {
      assert s.sh.owed[cl] in s.procs && Debt(s.procs[s.sh.owed[cl]]) == Some(cl);
    }
    hide SharedInv;
  }

  /** When a tunnel handler is done its client is closed and gone from the hub. */
  lemma {:induction false} DoneMeansGone(c: Config, s: State, pid: Pid, token: string, client: ClientId)
    requires Reached(c, s) && pid in s.procs
    requires s.procs[pid] == TunnelProc(TunnelDone(token, client))
    ensures client in s.sh.closed && forall t | t in s.sh.hub :: s.sh.hub[t] != client
  {
    hide Reached;
    ReachedInv(c, s);
    assert ProcOk(c, s.sh, pid, s.procs[pid]) && HubInv(s.sh.hub, s.sh.clients, s.sh.closed, s.sh.owed);
    hide SharedInv;
  }

  /** What can end a client's time as its token's current one: a new client for the
      token, the token's deletion, its own handler after the connection closed, or the end
      of the server. An older client's handler never does. */
  predicate MayEvict(sh: Shared, step: Step, token: string, client: ClientId) {
    match step
    case Act(_, _, Register(t, newcomer)) => t == token && newcomer != client
    case Act(_, _, Disconnect(t)) => t == token
    case Act(_, _, Unregister(t, leaver)) => t == token && leaver == client && client in sh.closed
    case Restart => true
    case _ => false
  }

  lemma {:induction false} EvictingEffects(sh: Shared, pid: Pid, next: Proc, e: Effect, token: string, client: ClientId)
    requires Current(sh.hub, token) == Some(client) && (e.Unregister? ==> e.client in sh.closed)
    requires (e.Register? ==> e.client != client)
    ensures Current(ApplyEffect(sh, pid, e).hub, token) != Some(client)
            <==> MayEvict(sh, Act(pid, next, e), token, client)
  {
    hide AfterSave, AfterMark;
  }

  lemma {:induction false} ActingIsSafe(
      c: Config, s: State, pid: Pid, next: Proc, e: Effect, token: string, client: ClientId)
    requires Reached(c, s) && Enabled(c, s, Act(pid, next, e))
    requires Current(s.sh.hub, token) == Some(client)
    ensures Current(Apply(s, Act(pid, next, e)).sh.hub, token) != Some(client)
            <==> MayEvict(s.sh, Act(pid, next, e), token, client)
  {
    hide Reached, ProcStep, SharedInv, ProcOk;
    ReachedInv(c, s);
    CurrentIsKnown(c, s.sh, token);
    assert ProcOk(c, s.sh, pid, s.procs[pid]);
    ProcGoesOn(c, s.sh, pid, s.procs[pid], next, e);
    assert (e.Unregister? ==> e.client in s.sh.closed) && (e.Register? ==> e.client !in s.sh.clients);
    hide EffectOk, ApplyEffect, MayEvict;
    EvictingEffects(s.sh, pid, next, e, token, client);
  }

  // ---- the end of a connection ----

  /** Whenever its connection drops, a tunnel handler that waits for that can end by its own
      two steps; its client is then closed and out of the hub. */
  lemma {:induction false} TunnelCanEnd(c: Config, s: State, pid: Pid, token: string, client: ClientId)
    requires pid in s.procs && s.procs[pid] == TunnelProc(TunnelOpen(token, client)) && client in s.sh.clients
    ensures var steps := [Environment(CloseClient(client)),
                          Act(pid, TunnelProc(TunnelClosed(token, client)), CloseClient(client)),
                          Act(pid, TunnelProc(TunnelDone(token, client)), Unregister(token, client))];
            && ValidRun(c, s, steps)
            && var end := Run(s, steps);
               client in end.sh.closed && Current(end.sh.hub, token) != Some(client)
  {
    var a := Environment(CloseClient(client));
    var b := Act(pid, TunnelProc(TunnelClosed(token, client)), CloseClient(client));
    var d := Act(pid, TunnelProc(TunnelDone(token, client)), Unregister(token, client));
    var s1, s2, s3 := Apply(s, a), Apply(Apply(s, a), b), Apply(Apply(Apply(s, a), b), d);
    assert Enabled(c, s, a) && Enabled(c, s1, b) && Enabled(c, s2, d);
    assert client in s3.sh.closed && Current(s3.sh.hub, token) != Some(client);
    hide Enabled, Apply;
    assert ValidRun(c, s3, []) && Run(s3, []) == s3;
    assert [d][0] == d && [d][1..] == [] && [b, d][0] == b && [b, d][1..] == [d];
    assert ValidRun(c, s2, [d]) && Run(s2, [d]) == s3;
    assert ValidRun(c, s1, [b, d]) && Run(s1, [b, d]) == s3;
    assert [a, b, d][0] == a && [a, b, d][1..] == [b, d];
  }

  /** And a worker that waits for its next tick can stop. */
  lemma {:induction false} WorkerCanEnd(c: Config, s: State, pid: Pid, d: Drain)
    requires pid in s.procs && s.procs[pid] == DrainProc(d) && d.DrainIdle?
    ensures Enabled(c, s, Act(pid, DrainProc(DrainDone), Nothing)) <==> d.client in s.sh.closed
  {
    hide PendingAnswer;
  }

  // ---- token deletion ----

  /** The deletion has still to disconnect the token, or this client is no longer its
      current one. */
  predicate DueOrGone(s: State, pid: Pid, token: string, client: ClientId) {
    && client in s.sh.clients
    && (|| (pid in s.procs && s.procs[pid] == DeleteProc(Disconnecting(token)))
        || Current(s.sh.hub, token) != Some(client))
  }

  lemma {:induction false} DisconnectStep(
      c: Config, s: State, pid: Pid, next: Proc, e: Effect, token: string, client: ClientId)
    requires pid in s.procs && s.procs[pid] == DeleteProc(Disconnecting(token))
    requires Enabled(c, s, Act(pid, next, e))
    ensures token !in Apply(s, Act(pid, next, e)).sh.hub
  {
  }

  lemma {:induction false} DueOrGoneKept(
      c: Config, s: State, step: Step, pid: Pid, token: string, client: ClientId)
    requires Inv(c, s) && Enabled(c, s, step) && DueOrGone(s, pid, token, client)
    ensures DueOrGone(Apply(s, step), pid, token, client)
  {
    assert client in Apply(s, step).sh.clients by {
      hide Inv, Enabled, Apply;
      StepGrows(c, s, step);
    }
    match step {
      case Spawn(_, _) => hide Inv, Starts;
      case Restart => hide Inv;
      case Environment(e) =>
        hide Inv, ApplyEffect;
        OutsideKeepsHub(s.sh, e);
      case Act(p, next, e) =>
        if p == pid && s.procs[pid] == DeleteProc(Disconnecting(token)) {
          hide Inv, Apply, Enabled;
          DisconnectStep(c, s, pid, next, e, token, client);
        } else if Current(s.sh.hub, token) != Some(client) {
          assert ProcOk(c, s.sh, p, s.procs[p]);
          hide SharedInv, ProcOk, ProcStep, ApplyEffect, EffectOk;
          ProcGoesOn(c, s.sh, p, s.procs[p], next, e);
          EffectGone(c, s.sh, p, e, token, client);
        } else {
          hide Inv, ProcStep, ApplyEffect;
        }
    }
  }

  lemma {:induction false} DueOrGoneInRun(
      c: Config, s: State, steps: seq<Step>, pid: Pid, token: string, client: ClientId)
    requires Inv(c, s) && ValidRun(c, s, steps) && DueOrGone(s, pid, token, client)
    ensures DueOrGone(Run(s, steps), pid, token, client)
    decreases |steps|
  {
    hide Inv, Enabled, Apply, DueOrGone;
    if steps != [] {
      DueOrGoneKept(c, s, steps[0], pid, token, client);
      InvKept(c, s, steps[0]);
      DueOrGoneInRun(c, Apply(s, steps[0]), steps[1..], pid, token, client);
    }
  }

  /** Once a token's row is deleted, its deletion is not over before the token's client of
      then is out of the hub, and closed or about to be, whatever else goes on. */
  lemma {:induction false} DeletionDisconnects(
      c: Config, s: State, steps: seq<Step>, pid: Pid, token: string, client: ClientId)
    requires Reached(c, s) && ValidRun(c, s, steps)
    requires pid in s.procs && s.procs[pid] == DeleteProc(Disconnecting(token))
    requires Current(s.sh.hub, token) == Some(client)
    requires pid in Run(s, steps).procs && Run(s, steps).procs[pid] == DeleteProc(DeleteDone)
    ensures var end := Run(s, steps);
            && Current(end.sh.hub, token) != Some(client)
            && (client in end.sh.closed || exists p :: p in end.procs && Debt(end.procs[p]) == Some(client))
  {
    ReachedFrom(c, s, steps);
    hide Reached, ValidRun, Run;
    EntriesHaveHandlers(c, s, token);
    ReachedInv(c, s);
    hide Inv, Serves;
    DueOrGoneInRun(c, s, steps, pid, token, client);
    RunGrows(c, s, steps);
    NoClientForgotten(c, Run(s, steps), client);
  }

  lemma {:induction false} ReachedFrom(c: Config, s: State, steps: seq<Step>)
    requires Reached(c, s) && ValidRun(c, s, steps)
    ensures Reached(c, Run(s, steps))
  {
    var before :| ValidRun(c, INITIAL, before) && s == Run(INITIAL, before);
    RunConcat(c, INITIAL, before, steps);
  }

  predicate MakesToken(step: Step, token: string) {
    match step
    case Act(_, _, CreateToken(t)) => t == token
    case Environment(CreateToken(t)) => t == token
    case _ => false
  }

  lemma {:induction false} OnlyCreationAdds(sh: Shared, pid: Pid, e: Effect, token: string)
    requires token !in sh.tokens && e != CreateToken(token)
    ensures token !in ApplyEffect(sh, pid, e).tokens
  {
    hide AfterSave, AfterMark, Retention.AfterAgeSweep, Retention.AfterCountSweep, Registered, Unregistered;
  }

  lemma {:induction false} StaysDeleted(c: Config, s: State, step: Step, token: string)
    requires Enabled(c, s, step) && token !in s.sh.tokens && !MakesToken(step, token)
    ensures token !in Apply(s, step).sh.tokens
  {
    hide Enabled, ApplyEffect;
    match step
    case Act(pid, _, e) => OnlyCreationAdds(s.sh, pid, e, token);
    case Environment(e) => OnlyCreationAdds(s.sh, 0, e, token);
    case _ =>
  }

  lemma {:induction false} RefusedWhileGone(c: Config, s: State, steps: seq<Step>, token: string)
    requires ValidRun(c, s, steps) && token !in s.sh.tokens
    requires forall i | 0 <= i < |steps| :: !MakesToken(steps[i], token)
    ensures token !in Run(s, steps).sh.tokens
    decreases |steps|
  {
    hide Apply, Enabled, MakesToken;
    if steps != [] {
      StaysDeleted(c, s, steps[0], token);
      assert forall i | 0 <= i < |steps[1..]| :: steps[1..][i] == steps[i + 1];
      RefusedWhileGone(c, Apply(s, steps[0]), steps[1..], token);
    }
  }

  /** Once a deletion is under way, and until a token of that name is made again, no hook and
      no tunnel can begin for the token, over restarts too. */
  lemma {:induction false} DeletedTokenIsRefused(
      c: Config, s: State, pid: Pid, e: Effect, token: string, steps: seq<Step>)
    requires pid in s.procs && s.procs[pid] == DeleteProc(DeleteChecked(token))
    requires Enabled(c, s, Act(pid, DeleteProc(Disconnecting(token)), e))
    requires ValidRun(c, Apply(s, Act(pid, DeleteProc(Disconnecting(token)), e)), steps)
    requires forall i | 0 <= i < |steps| :: !MakesToken(steps[i], token)
    ensures var end := Run(Apply(s, Act(pid, DeleteProc(Disconnecting(token)), e)), steps);
            forall q, p | Enabled(c, end, Spawn(q, p)) ::
              && (p.HookProc? && p.h.HookChecked? ==> p.h.arrival.token != token)
              && (p.TunnelProc? ==> p.t.token != token)
  {
    hide MakesToken, Run, ValidRun;
    var deleted := Apply(s, Act(pid, DeleteProc(Disconnecting(token)), e));
    assert token !in deleted.sh.tokens;
    RefusedWhileGone(c, deleted, steps, token);
    hide Apply;
  }

  lemma {:induction false} OutsideKeepsHub(sh: Shared, e: Effect)
    requires FromOutside(sh, e)
    ensures ApplyEffect(sh, 0, e).hub == sh.hub
  {
    hide Retention.AfterAgeSweep, Retention.AfterCountSweep;
  }

  /** In every reachable state a step of anyone, or of the environment or a restart, ends a
      client's time as current exactly when it is one of those. */
  lemma {:induction false} SuccessorsAreSafe(c: Config, s: State, step: Step, token: string, client: ClientId)
    requires Reached(c, s) && Enabled(c, s, step) && Current(s.sh.hub, token) == Some(client)
    ensures Current(Apply(s, step).sh.hub, token) != Some(client) <==> MayEvict(s.sh, step, token, client)
  {
    hide Reached, FromOutside, ApplyEffect, ProcStep, Starts;
    match step {
      case Act(pid, next, e) =>
        hide Apply, Enabled, MayEvict;
        ActingIsSafe(c, s, pid, next, e, token, client);
      case Environment(e) => OutsideKeepsHub(s.sh, e);
      case Spawn(_, _) =>
      case Restart =>
    }
  }
}
