/** The invariant of the registry, and that every operation keeps it. */
module BreakerInvariant {
  import opened Common
  import opened BreakerRoute
  import opened BreakerKeys
  import opened BreakerSpec

  /** An active ticket matches the epoch and the lease of the version it was issued on. */
  predicate TicketOk(a: ActiveKey, t: Ticket, rt: Runtime, leaseSeq: nat) {
    && KeyOf(t) == a
    && t.epoch == rt.epoch
    && 1 <= t.lease <= leaseSeq
    && Ticketable(rt.state)
    && (t.guarded <==> Guarded(rt.state))
    && (t.guarded ==> rt.leaseId == Some(t.lease))
  }

  predicate SameRoute(s: Ticket, t: Ticket) {
    s.version.key == t.version.key && s.version.version.fingerprint == t.version.version.fingerprint
  }

  predicate RoutesOk(reg: Reg) {
    forall v <- reg.routes :: RouteOk(reg.routes[v])
  }

  /** No pinned version has been dropped. */
  predicate PinsOk(reg: Reg) {
    forall v <- reg.pins :: reg.pins[v] > 0 && v in reg.routes
  }

  /** No ticketed version has been dropped, and every ticket is live. */
  predicate TicketsOk(reg: Reg) {
    forall a <- reg.active ::
      a.version in reg.routes && TicketOk(a, reg.active[a], reg.routes[a.version], reg.leaseSeq)
  }

  predicate LeasesUnique(active: map<ActiveKey, Ticket>) {
    forall a <- active, b <- active :: active[a].lease == active[b].lease ==> a == b
  }

  /** At most one guarded ticket per route key and fingerprint, across all revisions. */
  predicate SingleProbe(active: map<ActiveKey, Ticket>) {
    forall a <- active, b <- active ::
      active[a].guarded && active[b].guarded && SameRoute(active[a], active[b]) ==> a == b
  }

  predicate Inv(reg: Reg) {
    && reg.WellKeyed()
    && RoutesOk(reg)
    && PinsOk(reg)
    && TicketsOk(reg)
    && LeasesUnique(reg.active)
    && SingleProbe(reg.active)
    && |reg.log| <= reg.capacity
  }

  /** Tickets are only dropped, or issued under a lease never used before. */
  predicate Evolves(reg: Reg, reg': Reg) {
    && reg.leaseSeq <= reg'.leaseSeq
    && forall a <- reg'.active ::
         (a in reg.active && reg'.active[a] == reg.active[a]) || reg'.active[a].lease > reg.leaseSeq
  }

  predicate OnlyDrops(reg: Reg, reg': Reg) {
    && reg'.leaseSeq == reg.leaseSeq
    && forall a <- reg'.active :: a in reg.active && reg'.active[a] == reg.active[a]
  }

  lemma SelfEvolves(reg: Reg)
    ensures Evolves(reg, reg)
  {
  }

  /** An operation that issues no ticket keeps the invariant if its routes still fit the tickets left. */
  lemma DroppingKeepsInv(reg: Reg, reg': Reg)
    requires Inv(reg) && OnlyDrops(reg, reg')
    requires reg'.WellKeyed() && RoutesOk(reg') && PinsOk(reg') && TicketsOk(reg') && |reg'.log| <= reg'.capacity
    ensures Inv(reg') && Evolves(reg, reg')
  {
  }

  lemma InvKeyed(reg: Reg)
    requires Inv(reg)
    ensures reg.WellKeyed()
  {
  }

  lemma CommitKeepsInv<T>(reg: Reg, next: Reg, value: T, save: SaveOutcome)
    requires Inv(reg) && Inv(next) && Evolves(reg, next)
    ensures Inv(Commit(reg, next, value, save).reg) && Evolves(reg, Commit(reg, next, value, save).reg)
  {
  }

  lemma CommitFrame<T>(reg: Reg, next: Reg, value: T, save: SaveOutcome)
    requires next.WellKeyed()
    ensures var o := Commit(reg, next, value, save);
            o.reg == if o.result.Ok? then next.(disk := o.reg.disk) else reg.(disk := o.reg.disk, uncertain := o.reg.uncertain)
  {
    hide Export;
  }

  // -------------------------------------------------------------- configuration

  lemma PruneKeepsInv(reg: Reg, v: VersionKey)
    requires Inv(reg)
    ensures Inv(Prune(reg, v)) && OnlyDrops(reg, Prune(reg, v))
  {
    if !reg.Needed(v) {
      var next := reg.(routes := reg.routes - {v});
      assert forall a <- reg.active :: a.version != v;
      assert Prune(reg, v) == next;
      DroppingKeepsInv(reg, next);
    }
  }

  lemma PruneKeyKeepsInv(reg: Reg, key: RouteKey)
    requires Inv(reg)
    ensures Inv(PruneKey(reg, key)) && OnlyDrops(reg, PruneKey(reg, key))
  {
    DroppingKeepsInv(reg, PruneKey(reg, key));
  }

  /** A version not filed yet has no ticket to disturb. */
  lemma InstallKeepsInv(reg: Reg, v: VersionKey, rt: Runtime, log: seq<Event>)
    requires Inv(reg) && v !in reg.routes && RouteOk(rt) && |log| <= reg.capacity
    ensures var next := reg.(routes := reg.routes[v := rt], current := reg.current[v.key := v.version], log := log);
            Inv(next) && OnlyDrops(reg, next)
  {
    var next := reg.(routes := reg.routes[v := rt], current := reg.current[v.key := v.version], log := log);
    assert forall k <- next.current :: k != v.key ==> k in reg.current;
    DroppingKeepsInv(reg, next);
  }

  lemma ConfiguredKeepsInv(reg: Reg, r: Registration)
    requires Inv(reg) && FreshVersion(reg, r) && Configured(reg, r).Ok?
    ensures Inv(Configured(reg, r).value) && OnlyDrops(reg, Configured(reg, r).value)
  {
    var v := VersionKey(r.key, r.version);
    if r.key !in reg.current {
      var rt := FreshRuntime(r.policy, r.enabled);
      InstallKeepsInv(reg, v, rt, reg.log);
      PruneKeyKeepsInv(reg.(routes := reg.routes[v := rt], current := reg.current[r.key := r.version]), r.key);
    } else if r.version.revision == reg.current[r.key].revision {
      PruneKeyKeepsInv(reg, r.key);
    } else {
      var cur := reg.current[r.key];
      var rt := reg.routes[VersionKey(r.key, cur)];
      var next := Reconfigured(rt, r.version.fingerprint == cur.fingerprint, r.policy, r.enabled).value;
      var log := Logged(reg, v, rt.state, next, ConfigurationReason(rt.state, next));
      InstallKeepsInv(reg, v, next, log);
      PruneKeyKeepsInv(reg.(routes := reg.routes[v := next], current := reg.current[r.key := r.version], log := log),
                       r.key);
    }
  }

  lemma PruneKeyKeepsOtherKeys(reg: Reg, key: RouteKey, v: VersionKey)
    requires v.key != key
    ensures var next := PruneKey(reg, key);
            && (v in next.routes <==> v in reg.routes)
            && (v in reg.routes ==> next.routes[v] == reg.routes[v])
            && next.current == reg.current
  {
  }

  /** Configuring one key leaves the versions of every other key alone. */
  lemma ConfiguredKeepsOtherKeys(reg: Reg, r: Registration, v: VersionKey)
    requires reg.WellKeyed() && Configured(reg, r).Ok? && v.key != r.key
    ensures var next := Configured(reg, r).value;
            && (v in next.routes <==> v in reg.routes)
            && (v in reg.routes ==> next.routes[v] == reg.routes[v])
            && (v.key in next.current <==> v.key in reg.current)
            && (v.key in reg.current ==> next.current[v.key] == reg.current[v.key])
  {
    hide PruneKey, Logged, Reconfigured, FreshRuntime;
    var w := VersionKey(r.key, r.version);
    if r.key !in reg.current {
      PruneKeyKeepsOtherKeys(reg.(routes := reg.routes[w := FreshRuntime(r.policy, r.enabled)],
                                  current := reg.current[r.key := r.version]), r.key, v);
    } else if r.version.revision == reg.current[r.key].revision {
      PruneKeyKeepsOtherKeys(reg, r.key, v);
    } else {
      var cur := reg.current[r.key];
      var rt := reg.routes[VersionKey(r.key, cur)];
      var next := Reconfigured(rt, r.version.fingerprint == cur.fingerprint, r.policy, r.enabled).value;
      PruneKeyKeepsOtherKeys(reg.(routes := reg.routes[w := next], current := reg.current[r.key := r.version],
                                  log := Logged(reg, w, rt.state, next, ConfigurationReason(rt.state, next))), r.key, v);
    }
  }

  lemma {:induction false} ConfiguredAllKeepsInv(reg: Reg, rs: seq<Registration>)
    requires Inv(reg) && DistinctKeys(rs) && ConfiguredAll(reg, rs).Ok?
    requires forall r <- rs :: FreshVersion(reg, r)
    ensures Inv(ConfiguredAll(reg, rs).value) && OnlyDrops(reg, ConfiguredAll(reg, rs).value)
    decreases |rs|
  {
    if rs != [] {
      var next := Configured(reg, rs[0]).value;
      ConfiguredKeepsInv(reg, rs[0]);
      forall r | r in rs[1..]
        ensures FreshVersion(next, r)
      {
        assert FreshVersion(reg, r);
        ConfiguredKeepsOtherKeys(reg, rs[0], VersionKey(r.key, r.version));
      }
      ConfiguredAllKeepsInv(next, rs[1..]);
    }
  }

  lemma RetiredKeepsInv(reg: Reg, scope: RetireScope, rs: seq<Registration>)
    requires Inv(reg) && rs != []
    ensures Inv(Retired(reg, scope, rs)) && OnlyDrops(reg, Retired(reg, scope, rs))
  {
    var next := Retired(reg, scope, rs);
    assert forall a <- reg.active :: a.version in next.routes && next.routes[a.version] == reg.routes[a.version];
    DroppingKeepsInv(reg, next);
  }

  lemma ConfigureRouteKeepsInv(reg: Reg, r: Registration, save: SaveOutcome)
    requires Inv(reg) && FreshVersion(reg, r)
    ensures var o := ConfigureRoute(reg, r, save);
            Inv(o.reg) && Evolves(reg, o.reg)
  {
    SelfEvolves(reg);
    if Configured(reg, r).Ok? {
      ConfiguredKeepsInv(reg, r);
      CommitKeepsInv(reg, Configured(reg, r).value, (), save);
    }
  }

  lemma ConfigureRoutesKeepsInv(reg: Reg, rs: seq<Registration>, scope: RetireScope, save: SaveOutcome)
    requires Inv(reg) && forall r <- rs :: FreshVersion(reg, r)
    ensures var o := ConfigureRoutes(reg, rs, scope, save);
            Inv(o.reg) && Evolves(reg, o.reg)
  {
    SelfEvolves(reg);
    hide Retired, Configured, Commit;
    if rs != [] && DistinctKeys(rs) && ConfiguredAll(reg, rs).Ok? {
      ConfiguredAllKeepsInv(reg, rs);
      var next := ConfiguredAll(reg, rs).value;
      RetiredKeepsInv(next, scope, rs);
      CommitKeepsInv(reg, Retired(next, scope, rs), (), save);
    }
  }

  // ------------------------------------------------------------------ admission

  /** Replacing the runtime of a version that holds no ticket is harmless. */
  lemma ReplaceUnticketedKeepsInv(reg: Reg, v: VersionKey, rt: Runtime, log: seq<Event>)
    requires Inv(reg) && v in reg.routes && RouteOk(rt) && |log| <= reg.capacity
    requires !reg.Ticketed(v)
    ensures var next := reg.(routes := reg.routes[v := rt], log := log);
            Inv(next) && OnlyDrops(reg, next)
  {
    var next := reg.(routes := reg.routes[v := rt], log := log);
    assert forall a <- reg.active :: a.version != v;
    DroppingKeepsInv(reg, next);
  }

  /** Open and disabled versions hold no active ticket. */
  lemma OpenHoldsNoTicket(reg: Reg, v: VersionKey)
    requires Inv(reg) && v in reg.routes && !Ticketable(reg.routes[v].state)
    ensures !reg.Ticketed(v) && Without(reg.active, v) == reg.active
  {
  }

  /** The transition into HALF_OPEN, before it is saved. */
  lemma HalfOpenKeepsInv(reg: Reg, v: VersionKey, reason: Reason)
    requires Inv(reg) && v in reg.routes && reg.routes[v].state in {OpenTemporary, OpenActionRequired}
    requires Transition(reg.routes[v], HalfOpen).Ok?
    ensures var rt := reg.routes[v];
            var next := Transition(rt, HalfOpen).value;
            && next.state == HalfOpen && Without(reg.active, v) == reg.active
            && var half := reg.(routes := reg.routes[v := next], log := Logged(reg, v, rt.state, next, reason));
               Inv(half) && OnlyDrops(reg, half)
  {
    var rt := reg.routes[v];
    OpenHoldsNoTicket(reg, v);
    var next := Transition(rt, HalfOpen).value;
    ReplaceUnticketedKeepsInv(reg, v, next, Logged(reg, v, rt.state, next, reason));
  }

  lemma EnterHalfOpenKeepsInv(reg: Reg, v: VersionKey, reason: Reason, save: SaveOutcome)
    requires Inv(reg) && v in reg.routes && reg.routes[v].state in {OpenTemporary, OpenActionRequired}
    ensures var o := EnterHalfOpen(reg, v, reason, save);
            Inv(o.reg) && OnlyDrops(reg, o.reg) && v in o.reg.routes
            && (o.result.Ok? ==> o.reg.routes[v].state == HalfOpen && o.reg.active == reg.active)
  {
    var rt := reg.routes[v];
    hide Inv, RouteOk, Logged, Without, Commit;
    InvKeyed(reg);
    if Transition(rt, HalfOpen).Ok? {
      HalfOpenKeepsInv(reg, v, reason);
      var next := Transition(rt, HalfOpen).value;
      var half := reg.(routes := reg.routes[v := next], log := Logged(reg, v, rt.state, next, reason));
      InvKeyed(half);
      CommitKeepsInv(reg, half, (), save);
      CommitFrame(reg, half, (), save);
      assert EnterHalfOpen(reg, v, reason, save) == Commit(reg, half, (), save);
    }
  }

  /** Issuing a ticket under a new lease, and, for a guarded probe, with no other probe on the route. */
  lemma IssueKeepsInv(reg: Reg, t: Ticket)
    requires Inv(reg) && t.version in reg.routes && KeyOf(t) !in reg.active && t.lease == reg.leaseSeq + 1
    requires var rt := reg.routes[t.version];
             Ticketable(rt.state) && t.epoch == rt.epoch && t.guarded == Guarded(rt.state)
    requires t.guarded ==> !reg.GuardedLeaseActive(t.version.key, t.version.version.fingerprint)
    ensures var rt := reg.routes[t.version];
            var next := reg.(active := reg.active[KeyOf(t) := t],
                             leaseSeq := t.lease,
                             routes := if t.guarded then reg.routes[t.version := rt.(leaseId := Some(t.lease))] else reg.routes);
            Inv(next) && Evolves(reg, next)
  {
    hide TicketOk, RouteOk, SameRoute, LeasesUnique, SingleProbe;
    var rt := reg.routes[t.version];
    var next := reg.(active := reg.active[KeyOf(t) := t],
                     leaseSeq := t.lease,
                     routes := if t.guarded then reg.routes[t.version := rt.(leaseId := Some(t.lease))] else reg.routes);
    IssueFitsTickets(reg, t);
    NewestTicketFits(reg.active, t);
    assert TicketsOk(next);
  }

  lemma NewestTicketFits(active: map<ActiveKey, Ticket>, t: Ticket)
    requires LeasesUnique(active) && SingleProbe(active)
    requires forall a <- active ::
               active[a].lease < t.lease
               && (active[a].guarded && t.guarded ==> !SameRoute(active[a], t) && !SameRoute(t, active[a]))
    ensures LeasesUnique(active[KeyOf(t) := t]) && SingleProbe(active[KeyOf(t) := t])
  {
  }

  lemma IssueFitsTickets(reg: Reg, t: Ticket)
    requires TicketsOk(reg) && RoutesOk(reg) && t.version in reg.routes && t.lease == reg.leaseSeq + 1
    requires var rt := reg.routes[t.version];
             Ticketable(rt.state) && t.epoch == rt.epoch && t.guarded == Guarded(rt.state)
    requires t.guarded ==> !reg.GuardedLeaseActive(t.version.key, t.version.version.fingerprint)
    ensures var rt := reg.routes[t.version];
            var routes := if t.guarded then reg.routes[t.version := rt.(leaseId := Some(t.lease))] else reg.routes;
            && (forall v <- routes :: RouteOk(routes[v]))
            && TicketOk(KeyOf(t), t, routes[t.version], t.lease)
            && forall a <- reg.active ::
                 && TicketOk(a, reg.active[a], routes[a.version], t.lease)
                 && reg.active[a].lease < t.lease
                 && (reg.active[a].guarded && t.guarded ==>
                       !SameRoute(reg.active[a], t) && !SameRoute(t, reg.active[a]))
  {
    forall a | a in reg.active
      ensures TicketOk(a, reg.active[a], reg.routes[a.version], reg.leaseSeq)
      ensures reg.active[a].guarded && t.guarded ==> a.version != t.version
    {
    }
  }

  lemma GrantKeepsInv(reg: Reg, v: VersionKey, attempt: string, manual: bool, signal: Signal, leaseOk: bool)
    requires Inv(reg) && v in reg.routes && Ticketable(reg.routes[v].state) && ActiveKey(v, attempt) !in reg.active
    ensures var o := Grant(reg, v, attempt, manual, signal, leaseOk);
            Inv(o.reg) && Evolves(reg, o.reg)
  {
    var o := Grant(reg, v, attempt, manual, signal, leaseOk);
    hide Inv, Evolves;
    if o.result.Ok? && o.result.value.Allowed? {
      IssueKeepsInv(reg, o.result.value.ticket);
    } else {
      SelfEvolves(reg);
    }
  }

  lemma EvolvesTransitive(a: Reg, b: Reg, c: Reg)
    requires OnlyDrops(a, b) && Evolves(b, c)
    ensures Evolves(a, c)
  {
  }

  /** Entering HALF_OPEN and then asking for a ticket. */
  lemma ProbeEntryKeepsInv(reg: Reg, v: VersionKey, reason: Reason, attempt: string, manual: bool, signal: Signal,
                           leaseOk: bool, save: SaveOutcome)
    requires Inv(reg) && v in reg.routes && reg.routes[v].state in {OpenTemporary, OpenActionRequired}
    requires ActiveKey(v, attempt) !in reg.active
    ensures var entered := EnterHalfOpen(reg, v, reason, save);
            if entered.result.Err? then Inv(entered.reg) && Evolves(reg, entered.reg)
            else var o := Grant(entered.reg, v, attempt, manual, signal, leaseOk);
                 Inv(o.reg) && Evolves(reg, o.reg)
  {
    EnterHalfOpenKeepsInv(reg, v, reason, save);
    var entered := EnterHalfOpen(reg, v, reason, save);
    hide Inv, EnterHalfOpen, Grant;
    if entered.result.Ok? {
      GrantKeepsInv(entered.reg, v, attempt, manual, signal, leaseOk);
      EvolvesTransitive(reg, entered.reg, Grant(entered.reg, v, attempt, manual, signal, leaseOk).reg);
    }
  }

  lemma AcquireKeepsInv(reg: Reg, v: VersionKey, attempt: string, manual: bool, signal: Signal, now: real,
                        leaseOk: bool, save: SaveOutcome)
    requires Inv(reg)
    ensures var o := Acquire(reg, v, attempt, manual, signal, now, leaseOk, save);
            Inv(o.reg) && Evolves(reg, o.reg)
  {
    hide Inv, Evolves, EnterHalfOpen, Grant, CoolingDown;
    var signal' := if manual then Probe else signal;
    SelfEvolves(reg);
    InvKeyed(reg);
    if v in reg.routes && ActiveKey(v, attempt) !in reg.active {
      var state := reg.routes[v].state;
      if state in {OpenTemporary, OpenActionRequired} {
        ProbeEntryKeepsInv(reg, v, if manual then ManualProbeStarted else CooldownElapsed, attempt, manual, signal',
                           leaseOk, save);
      } else if Ticketable(state) {
        GrantKeepsInv(reg, v, attempt, manual, signal', leaseOk);
      }
    }
  }

  // --------------------------------------------------------------- observations

  /** A guarded ticket is the only ticket of its version. */
  lemma GuardedIsAlone(reg: Reg, t: Ticket, a: ActiveKey)
    requires Inv(reg) && Matches(reg, t) && a in reg.active && a.version == t.version && a != KeyOf(t)
    ensures !t.guarded && !reg.active[a].guarded && !Guarded(reg.routes[t.version].state)
  {
    assert TicketOk(a, reg.active[a], reg.routes[t.version], reg.leaseSeq);
    assert TicketOk(KeyOf(t), t, reg.routes[t.version], reg.leaseSeq);
  }

  /** A matching ticket's runtime, once its lease is returned, is still a well-formed ticketable runtime. */
  lemma FreedOk(reg: Reg, t: Ticket)
    requires Inv(reg) && Matches(reg, t)
    ensures RouteOk(Freed(reg, t)) && Ticketable(Freed(reg, t).state)
    ensures Freed(reg, t) == reg.routes[t.version].(leaseId := Freed(reg, t).leaseId)
    ensures Guarded(Freed(reg, t).state) ==> Freed(reg, t).leaseId == None
  {
    assert TicketOk(KeyOf(t), t, reg.routes[t.version], reg.leaseSeq);
  }

  /** What an observation does to the routes: one runtime replaced, nothing current or pinned dropped. */
  lemma ObservedRoutes(reg: Reg, t: Ticket, rt: Runtime, reason: Reason)
    requires Matches(reg, t) && reg.WellKeyed() && |reg.log| <= reg.capacity
    ensures var next := Observed(reg, t, rt, reason);
            && next.current == reg.current && next.pins == reg.pins && next.leaseSeq == reg.leaseSeq
            && next.capacity == reg.capacity && |next.log| <= next.capacity
            && (forall v <- next.routes :: v in reg.routes && next.routes[v] == if v == t.version then rt else reg.routes[v])
            && (forall v <- reg.routes :: v != t.version || reg.IsCurrent(v) || v in reg.pins ==> v in next.routes)
  {
    hide Without, Reg.WellKeyed, Reg.Ticketed;
  }

  /** What it does to the tickets: its own gone, and after a change of state all those of its version. */
  lemma ObservedTickets(reg: Reg, t: Ticket, rt: Runtime, reason: Reason, a: ActiveKey)
    requires Matches(reg, t) && reg.WellKeyed() && a in Observed(reg, t, rt, reason).active
    ensures var next := Observed(reg, t, rt, reason);
            && a in reg.active && a != KeyOf(t) && next.active[a] == reg.active[a]
            && (a.version == t.version ==> rt.epoch == reg.routes[t.version].epoch && a.version in next.routes)
  {
    var released := reg.(active := reg.active - {KeyOf(t)});
    assert a in released.active;
    assert a.version == t.version ==> released.Ticketed(t.version);
    hide Reg.WellKeyed, Logged;
  }

  lemma ObservedKeepsInv(reg: Reg, t: Ticket, rt: Runtime, reason: Reason)
    requires Inv(reg) && Matches(reg, t)
    requires RouteOk(rt) && Moves(Freed(reg, t), rt)
    ensures Inv(Observed(reg, t, rt, reason)) && OnlyDrops(reg, Observed(reg, t, rt, reason))
    ensures KeyOf(t) !in Observed(reg, t, rt, reason).active
  {
    hide Observed, RouteOk, LeasesUnique, SingleProbe;
    var next := Observed(reg, t, rt, reason);
    ObservedRoutes(reg, t, rt, reason);
    FreedOk(reg, t);
    forall a | a in next.active
      ensures a in reg.active && a != KeyOf(t) && next.active[a] == reg.active[a]
      ensures a.version in next.routes && TicketOk(a, next.active[a], next.routes[a.version], next.leaseSeq)
    {
      ObservedTickets(reg, t, rt, reason, a);
      assert TicketOk(a, reg.active[a], reg.routes[a.version], reg.leaseSeq);
      if a.version == t.version {
        GuardedIsAlone(reg, t, a);
      }
    }
    assert TicketsOk(next) && OnlyDrops(reg, next);
    DroppingKeepsInv(reg, next);
  }

  lemma ObserveKeepsInv(reg: Reg, t: Ticket, seen: Result<Runtime>, reason: Reason, save: SaveOutcome)
    requires Inv(reg) && Matches(reg, t)
    requires seen.Ok? ==> RouteOk(seen.value) && Moves(Freed(reg, t), seen.value)
    ensures var o := Observe(reg, t, seen, reason, save);
            Inv(o.reg) && Evolves(reg, o.reg) && (o.result.Ok? ==> OnlyDrops(reg, o.reg) && KeyOf(t) !in o.reg.active)
  {
    if seen.Ok? {
      ObservedKeepsInv(reg, t, seen.value, reason);
      CommitKeepsInv(reg, Observed(reg, t, seen.value, reason), Applied, save);
    }
  }

  predicate IsObservation(op: Op) {
    op.OpSuccess? || op.OpFailure? || op.OpCancel? || op.OpAbandon?
  }

  /** A ticket is used up by the observation that applies it. */
  predicate Consumes(reg: Reg, t: Ticket, o: Outcome<Observation>) {
    o.result == Ok(Applied) ==> Matches(reg, t) && OnlyDrops(reg, o.reg) && KeyOf(t) !in o.reg.active
  }

  lemma SuccessKeepsInv(reg: Reg, t: Ticket, now: real, save: SaveOutcome)
    requires Inv(reg)
    ensures var o := RecordSuccess(reg, t, now, save);
            Inv(o.reg) && Evolves(reg, o.reg) && Consumes(reg, t, o)
  {
    hide Inv, Evolves, OnSuccess, Freed, RouteOk, Moves, Observe, OnlyDrops;
    SelfEvolves(reg);
    InvKeyed(reg);
    if Matches(reg, t) {
      var rt := Freed(reg, t);
      FreedOk(reg, t);
      var seen := OnSuccess(rt, t.signal, now);
      if seen.Ok? { SuccessKeepsRouteOk(rt, t.signal, now); }
      ObserveKeepsInv(reg, t, seen, if t.signal == Probe then ProbeSucceeded else BusinessSucceeded, save);
    }
  }

  lemma FailureKeepsInv(reg: Reg, t: Ticket, kind: FailureKind, category: Category, status: Option<int>,
                        now: real, fraction: real, save: SaveOutcome)
    requires Inv(reg)
    ensures var o := RecordFailure(reg, t, kind, category, status, now, fraction, save);
            Inv(o.reg) && Evolves(reg, o.reg) && Consumes(reg, t, o)
  {
    hide Inv, Evolves, OnFailure, Freed, RouteOk, Moves, AsFailure, Observe, OnlyDrops, Matches, ValidStatus;
    SelfEvolves(reg);
    InvKeyed(reg);
    if Matches(reg, t) && ValidStatus(status) {
      var rt := Freed(reg, t);
      FreedOk(reg, t);
      var f := AsFailure(rt, kind, category, status);
      KeepsStatus(rt, kind, category, status);
      var seen := OnFailure(rt, t.signal, f, now, fraction);
      if seen.Ok? { FailureKeepsRouteOk(rt, t.signal, f, now, fraction); }
      ObserveKeepsInv(reg, t, seen, if t.signal == Probe then ProbeFailed else BusinessFailed, save);
    }
  }

  lemma KeepsStatus(rt: Runtime, kind: FailureKind, category: Category, status: Option<int>)
    ensures AsFailure(rt, kind, category, status).status == status
  {
  }

  lemma CancelKeepsInv(reg: Reg, t: Ticket, save: SaveOutcome)
    requires Inv(reg)
    ensures var o := RecordCancelled(reg, t, save);
            Inv(o.reg) && Evolves(reg, o.reg) && Consumes(reg, t, o)
  {
    hide Inv, OnCancel, Observed, Observe, RouteOk;
    SelfEvolves(reg);
    InvKeyed(reg);
    if Matches(reg, t) {
      var rt := Freed(reg, t);
      FreedOk(reg, t);
      if OnCancel(rt).Ok? { CancelKeepsRouteOk(rt); }
      ObserveKeepsInv(reg, t, OnCancel(rt), ProbeCancelled, save);
      ObservedKeepsInv(reg, t, rt, ProbeCancelled);
    }
  }

  lemma AbandonKeepsInv(reg: Reg, t: Ticket)
    requires Inv(reg)
    ensures var o := Abandon(reg, t);
            Inv(o.reg) && Evolves(reg, o.reg) && Consumes(reg, t, o)
  {
    SelfEvolves(reg);
    if Matches(reg, t) {
      FreedOk(reg, t);
      hide Observed;
      ObservedKeepsInv(reg, t, Freed(reg, t), ProbeCancelled);
    }
  }

  lemma ObservationKeepsInv(reg: Reg, op: Op)
    requires Inv(reg) && IsObservation(op)
    ensures Inv(Next(reg, op).reg) && Evolves(reg, Next(reg, op).reg)
    ensures Next(reg, op).reply == Seen(Applied) ==>
              Matches(reg, op.ticket) && OnlyDrops(reg, Next(reg, op).reg)
              && KeyOf(op.ticket) !in Next(reg, op).reg.active
  {
    hide ConfigureRoute, ConfigureRoutes, Acquire, RecordSuccess, RecordFailure, RecordCancelled, Abandon, Pin,
         Release, Restore, AttachStore, RestoreFromStore, Inv, Evolves, Matches, OnlyDrops;
    match op
    case OpSuccess(t, now, save) => SuccessKeepsInv(reg, t, now, save);
    case OpFailure(t, kind, category, status, now, fraction, save) =>
      FailureKeepsInv(reg, t, kind, category, status, now, fraction, save);
    case OpCancel(t, save) => CancelKeepsInv(reg, t, save);
    case OpAbandon(t) => AbandonKeepsInv(reg, t);
  }

  // ----------------------------------------------------------------------- pins

  lemma {:induction false} PinnedAllKeeps(reg: Reg, pins: map<VersionKey, nat>, vs: seq<VersionKey>)
    requires forall v <- pins :: pins[v] > 0 && v in reg.routes
    requires forall v <- vs :: v in reg.routes
    ensures forall v <- PinnedAll(pins, vs) :: PinnedAll(pins, vs)[v] > 0 && v in reg.routes
    decreases |vs|
  {
    if vs != [] {
      PinnedAllKeeps(reg, pins[vs[0] := PinCount(pins, vs[0]) + 1], vs[1..]);
    }
  }

  lemma {:induction false} ReleaseKeepsInv(reg: Reg, vs: seq<VersionKey>)
    requires Inv(reg)
    ensures Inv(Release(reg, vs).reg) && OnlyDrops(reg, Release(reg, vs).reg)
    decreases |vs|
  {
    if vs != [] && PinCount(reg.pins, vs[0]) > 0 {
      var v := vs[0];
      var pins := if PinCount(reg.pins, v) <= 1 then reg.pins - {v} else reg.pins[v := reg.pins[v] - 1];
      var lowered := reg.(pins := pins);
      DroppingKeepsInv(reg, lowered);
      PruneKeepsInv(lowered, v);
      assert Inv(Unpinned(reg, v)) && OnlyDrops(reg, Unpinned(reg, v));
      hide Inv, Unpinned;
      ReleaseKeepsInv(Unpinned(reg, v), vs[1..]);
    }
  }

  // -------------------------------------------------------------------- restore

  lemma {:induction false} RestoreRoutesKeepsInv(reg: Reg, docs: seq<RouteDoc>, seen: set<RouteKey>, now: real, count: nat)
    requires Inv(reg) && reg.active == map[] && RestoreRoutes(reg, docs, seen, now, count).Ok?
    ensures var res := RestoreRoutes(reg, docs, seen, now, count).value.reg;
            Inv(res) && OnlyDrops(reg, res) && res.current == reg.current
    decreases |docs|
  {
    if docs != [] {
      var d := docs[0];
      if d.key !in reg.current {
        RestoreRoutesKeepsInv(reg, docs[1..], seen + {d.key}, now, count);
      } else {
        var v := VersionKey(d.key, reg.current[d.key]);
        var rt := reg.routes[v];
        if Describes(d, v.version, rt) {
          var next := RestoredRoute(rt, d, now).value;
          var log := Logged(reg, v, rt.state, next, StateRestored);
          ReplaceUnticketedKeepsInv(reg, v, next, log);
          RestoreRoutesKeepsInv(reg.(routes := reg.routes[v := next], log := log), docs[1..], seen + {d.key}, now, count + 1);
        } else {
          RestoreRoutesKeepsInv(reg, docs[1..], seen + {d.key}, now, count);
        }
      }
    }
  }

  lemma RestoreDocumentKeepsInv(reg: Reg, doc: Document, now: real)
    requires Inv(reg) && reg.active == map[] && RestoreDocument(reg, doc, now).Ok?
    ensures var res := RestoreDocument(reg, doc, now).value.reg;
            Inv(res) && OnlyDrops(reg, res) && res.current == reg.current
  {
    RestoreRoutesKeepsInv(reg, doc.routes, {}, now, 0);
  }

  lemma RestoreKeepsInv(reg: Reg, doc: Document, now: real, save: SaveOutcome)
    requires Inv(reg)
    ensures var o := Restore(reg, doc, now, save);
            Inv(o.reg) && Evolves(reg, o.reg)
  {
    SelfEvolves(reg);
    hide RestoreDocument, Commit;
    if reg.active == map[] && RestoreDocument(reg, doc, now).Ok? {
      RestoreDocumentKeepsInv(reg, doc, now);
      var res := RestoreDocument(reg, doc, now).value;
      CommitKeepsInv(reg, res.reg, res.count, save);
    }
  }

  lemma AttachKeepsInv<T>(reg: Reg, next: Reg, value: T, save: SaveOutcome)
    requires Inv(reg) && Inv(next) && OnlyDrops(reg, next)
    ensures var o := SaveAndAttach(reg, next, value, save);
            Inv(o.reg) && Evolves(reg, o.reg)
  {
  }

  lemma AttachStoreKeepsInv(reg: Reg, save: SaveOutcome)
    requires Inv(reg)
    ensures Inv(AttachStore(reg, save).reg) && Evolves(reg, AttachStore(reg, save).reg)
  {
    SelfEvolves(reg);
    AttachKeepsInv(reg, reg, (), save);
  }

  lemma RestoreFromStoreKeepsInv(reg: Reg, now: real, save: SaveOutcome)
    requires Inv(reg)
    ensures var o := RestoreFromStore(reg, now, save);
            Inv(o.reg) && Evolves(reg, o.reg)
  {
    SelfEvolves(reg);
    AttachKeepsInv<nat>(reg, reg, 0, save);
    hide RestoreDocument, SaveAndAttach;
    if reg.active == map[] && reg.disk.Some? && RestoreDocument(reg, reg.disk.value, now).Ok? {
      RestoreDocumentKeepsInv(reg, reg.disk.value, now);
      var res := RestoreDocument(reg, reg.disk.value, now).value;
      AttachKeepsInv(reg, res.reg, res.count, save);
    }
  }

  lemma PinKeepsInv(reg: Reg, vs: seq<VersionKey>)
    requires Inv(reg)
    ensures Inv(Pin(reg, vs).reg) && Evolves(reg, Pin(reg, vs).reg)
  {
    SelfEvolves(reg);
    if Pin(reg, vs).result.Ok? {
      PinnedAllKeeps(reg, reg.pins, vs);
      DroppingKeepsInv(reg, Pin(reg, vs).reg);
    }
  }

  // ----------------------------------------------------------------- every step

  /** Every permitted operation, whatever the store answers, keeps the invariant. */
  lemma StepKeepsInv(reg: Reg, op: Op)
    requires Inv(reg) && Permitted(reg, op)
    ensures Inv(Next(reg, op).reg) && Evolves(reg, Next(reg, op).reg)
  {
    if IsObservation(op) {
      hide Inv, Evolves, Next;
      ObservationKeepsInv(reg, op);
    } else {
      hide ConfigureRoute, ConfigureRoutes, Acquire, RecordSuccess, RecordFailure, RecordCancelled, Abandon, Pin,
           Release, Restore, AttachStore, RestoreFromStore, Inv;
      match op
      case OpConfigureRoute(r, save) => ConfigureRouteKeepsInv(reg, r, save);
      case OpConfigureRoutes(rs, scope, save) => ConfigureRoutesKeepsInv(reg, rs, scope, save);
      case OpAcquire(v, attempt, manual, signal, now, leaseOk, save) =>
        AcquireKeepsInv(reg, v, attempt, manual, signal, now, leaseOk, save);
      case OpPin(vs) => PinKeepsInv(reg, vs);
      case OpRelease(vs) => ReleaseKeepsInv(reg, vs);
      case OpRestore(doc, now, save) => RestoreKeepsInv(reg, doc, now, save);
      case OpAttach(save) => AttachStoreKeepsInv(reg, save);
      case OpRestoreFromStore(now, save) => RestoreFromStoreKeepsInv(reg, now, save);
    }
  }
}
