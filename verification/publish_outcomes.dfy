/** What a publish serves, and when it goes through, told on the group, the profiles and the requests. */
module PublishOutcomes {
  import opened Common
  import D = FailoverDocument
  import opened H = GatewayHost
  import opened O = GatewayHostOutcomes
  import opened P = Publish

  /** The routes of a group: its primary profile first, its backup profile second, its own settings. */
  predicate RoutesOf(routes: Routes, g: D.Group, profiles: map<string, string>) {
    && g.body.primary in profiles && g.body.backup in profiles && g.body.primary != g.body.backup
    && routes.primary == profiles[g.body.primary] && routes.backup == profiles[g.body.backup]
    && routes.settings == g.body.settings
  }

  lemma FoundIs(doc: D.Document, g: D.Group)
    requires D.Valid(doc) && g in doc.groups
    ensures D.HasGroup(doc.groups, g.id) && D.Find(doc.groups, g.id) == g
  {
    D.FindFinds(doc.groups, g.id);
    var f := D.Find(doc.groups, g.id);
    var i :| 0 <= i < |doc.groups| && doc.groups[i] == g;
    var j :| 0 <= j < |doc.groups| && doc.groups[j] == f;
    assert i == j;
  }

  lemma MaterializedIs(g: D.Group, profiles: map<string, string>)
    ensures var m := Materialized(g.body, profiles);
            && (m.Some? <==> g.body.primary in profiles && g.body.backup in profiles && g.body.primary != g.body.backup)
            && (m.Some? ==> RoutesOf(m.value, g, profiles))
  {
  }

  /** `publish_group` is turned away, without effect, exactly by the lock or one of these. */
  predicate TurnedAway(w: World, g: D.Group, expected: int, profiles: map<string, string>) {
    || w.doc.revision != expected || !g.enabled
    || g.body.primary !in profiles || g.body.backup !in profiles || g.body.primary == g.body.backup
  }

  /**
   What a published group serves, and what a compensated one leaves; a group without its profiles is
   turned away before anything is asked of the gateway.
   */
  lemma PublishServes(w: World, g: D.Group, expected: int, profiles: map<string, string>, env: PublishEnv)
    requires HostInv(w.host) && D.Valid(w.doc) && g in w.doc.groups && !w.locked
    requires env.rival.Some? ==> env.rival.value.revision > w.doc.revision
    ensures var o := PublishGroup(w, g.id, expected, profiles, env);
            var e, h := w.doc.revision, o.world.host;
            && (TurnedAway(w, g, expected, profiles) ==> o == Outcome(w, Rejected))
            && (o.ending == Published ==>
                  && o.world.doc == w.doc.(revision := e + 1, active := Some(g.id))
                  && h.config.group.revision == e + 1 && h.config.group.groupId == g.id
                  && RoutesOf(h.config.group.routes, g, profiles)
                  && h.config == w.host.config.(group := h.config.group) && h.provider == h.config.group
                  && h.disk.active == Canonical(h.config) && Runs(h))
            && (o.ending == CompensatedEnding ==>
                  && o.world.doc == w.doc.(revision := e + 2)
                  && h.config == w.host.config.(group := w.host.config.group.(revision := e + 2))
                  && h.provider == h.config.group && h.disk.active == Canonical(h.config) && Runs(h))
            && (o.ending == Rejected ==>
                  o.world.doc == w.doc && h.config == w.host.config && h.disk.active == w.host.disk.active && !o.world.locked)
            && (o.ending == StateUncertain ==> o.world.locked)
  {
    hide Transacted, HostInv, D.Valid, D.Find, RoutesOf;
    FoundIs(w.doc, g);
    MaterializedIs(g, profiles);
    if !TurnedAway(w, g, expected, profiles) {
      EndingsBy(w, g.id, Materialized(g.body, profiles).value, env);
    }
  }

  /** Each ending of the transaction means its own state. */
  lemma EndingsBy(w: World, id: string, routes: Routes, env: PublishEnv)
    requires HostInv(w.host) && !w.locked && (env.rival.Some? ==> env.rival.value.revision > w.doc.revision)
    ensures var o := Transacted(w, id, routes, env);
            var e, c := w.doc.revision, w.host.config;
            && (o.ending == Published ==>
                  o.world.doc == w.doc.(revision := e + 1, active := Some(id))
                  && Serves(o.world.host, c.(group := GroupConfig(e + 1, id, routes))))
            && (o.ending == CompensatedEnding ==>
                  o.world.doc == w.doc.(revision := e + 2) && Serves(o.world.host, c.(group := c.group.(revision := e + 2))))
            && (o.ending == Rejected ==> o.world.doc == w.doc && OnlyPending(w.host, o.world.host) && !o.world.locked)
            && (o.ending == StateUncertain ==> o.world.locked) && o.ending != Locked
  {
    hide ControllerPrepare, ControllerActivate, ControllerAbort, ControllerRollback, Serves, Ready;
    var candidate := Candidate(w.doc.revision + 1, id, routes);
    ControllerPrepareKeeps(w.host, candidate, env.prepare);
    var p := ControllerPrepare(w.host, candidate, env.prepare);
    if p.record.Some? {
      var r, c := p.record.value, WithGroup(w.host.config, candidate);
      ControllerActivateOutcomes(p.host, r, c, env.activate);
      var a := ControllerActivate(p.host, r, env.activate);
      AbortMeansUntouched(p.host, a.host, r, c, env.abort);
      PendingCompose(w.host, p.host, ControllerAbort(a.host, r, env.abort).host);
      if a.receipt {
        RollbackServesPrevious(a.host, r, c, env.rollback);
      }
    }
  }

  // --------------------------------------------------------------- when it goes through

  /** A status request that the right process answers. */
  predicate Answered(env: VerifyEnv) {
    env.identity && env.delivery == Delivered
  }

  predicate PrepareGoesWell(env: PrepareStep) {
    && Answered(env.verify) && env.fileRead && env.credentials && env.delivery == Delivered
    && env.host.readable && env.host.parses && env.host.credentials && env.host.written
  }

  /** In time, and no write fails. */
  predicate ActivationGoesWell(env: ActivateEnv) {
    !env.late && env.readable && env.staged && env.replaced && env.accepted
  }

  predicate ActivateGoesWell(env: ActivateStep) {
    Answered(env.verify) && !env.verify.late && env.delivery == Delivered && ActivationGoesWell(env.host)
  }

  /** The activation takes place, its reply gets lost, and the status tells of it. */
  predicate ReplyGetsLost(env: ActivateStep) {
    && Answered(env.verify) && !env.verify.late && env.delivery == ReplyLost && ActivationGoesWell(env.host)
    && Answered(env.recheck)
  }

  predicate RollbackGoesWell(env: RollbackStep) {
    && Answered(env.before) && env.fileRead && env.prepareDelivery == Delivered && env.activateDelivery == Delivered
    && env.prepare.readable && env.prepare.parses && env.prepare.credentials && env.prepare.written
    && ActivationGoesWell(env.activate) && env.activate.described && Answered(env.after)
  }

  /** A gateway at rest that says what it runs, with no candidate. */
  predicate AtRest(h: Host) {
    Ready(h) && h.descriptorRevision == h.config.group.revision && h.prepared == None
  }

  lemma VerifySucceeds(h: Host, expected: Option<int>, env: VerifyEnv)
    requires HostInv(h) && Answered(env) && h.descriptorRevision == h.config.group.revision
    requires expected.Some? ==> expected.value == h.config.group.revision
    requires h.prepared.Some? ==> h.prepared.value.baseRevision == h.config.group.revision && !env.late
    ensures VerifiedRuntime(h, expected, env) == Verification(h, Some(StatusOf(h)))
  {
  }

  /** Preparing through the controller gives a record exactly if nothing fails and the revision is new. */
  lemma PrepareSucceeds(h: Host, candidate: Candidate, env: PrepareStep)
    requires AtRest(h)
    ensures var p := ControllerPrepare(h, candidate, env);
            && (p.record.Some? <==> PrepareGoesWell(env) && candidate.revision > h.config.group.revision)
            && (p.record.Some? ==> HostInv(p.host) && HoldsFor(h, p.host, WithGroup(h.config, candidate)))
  {
    VerifyNeeds(h, env.verify);
    if Answered(env.verify) {
      VerifySucceeds(h, None, env.verify);
      var c := WithGroup(h.config, candidate);
      PrepareOutcome(h, c, env.host);
      PrepareKeeps(h, c, env.host);
      hide Prepare, VerifiedRuntime;
    }
  }

  lemma VerifyNeeds(h: Host, env: VerifyEnv)
    ensures VerifiedRuntime(h, None, env).status.Some? ==> Answered(env)
  {
  }

  /** `h'` is `h` holding `c` as its candidate, with its pending file in place. */
  predicate HoldsFor(h: Host, h': Host, c: Config) {
    && OnlyPending(h, h') && h'.prepared.Some? && h'.prepared.value.config == c
    && h'.prepared.value.baseRevision == h.config.group.revision && h'.prepared.value.baseFileSha == h.fileSha
    && h'.disk.pending == Some(h'.prepared.value.pendingSha)
  }

  lemma ActivateSucceeds(h: Host, h': Host, c: Config, env: ActivateEnv)
    requires Ready(h) && HostInv(h') && HoldsFor(h, h', c) && c.group.revision > h.config.group.revision
    ensures var a := Activate(h', c.group.revision, ConfigSha(c), env);
            && (a.reply.IsActive? <==> ActivationGoesWell(env))
            && (a.reply.IsActive? ==>
                  && a.reply == IsActive(c.group.revision, ConfigSha(c)) && HostInv(a.host) && Serves(a.host, c)
                  && a.host.prepared == None && (env.described ==> AtRest(a.host)))
  {
    ActivateOutcome(h', c.group.revision, ConfigSha(c), env);
    ActivateOutcomes(h', c, env);
    hide Activate;
  }

  /** A publish succeeds exactly if it is not turned away, every step of it goes well, and nobody else saves. */
  lemma PublishGoesThrough(w: World, g: D.Group, expected: int, profiles: map<string, string>, env: PublishEnv)
    requires AtRest(w.host) && D.Valid(w.doc) && g in w.doc.groups && !w.locked
    requires env.rival.Some? ==> env.rival.value.revision > w.doc.revision
    ensures PublishGroup(w, g.id, expected, profiles, env).ending == Published <==>
              && !TurnedAway(w, g, expected, profiles) && w.doc.revision >= w.host.config.group.revision
              && PrepareGoesWell(env.prepare) && ActivateGoesWell(env.activate) && env.rival.None? && env.saved
  {
    hide D.Find, D.Valid, ControllerPrepare, ControllerActivate, ControllerRollback, HostInv, TurnedAway;
    FoundIs(w.doc, g);
    MaterializedIs(g, profiles);
    TurnsAway(w, g, expected, profiles, env);
    if !TurnedAway(w, g, expected, profiles) {
      IsActivated(w.host, Candidate(w.doc.revision + 1, g.id, Materialized(g.body, profiles).value), env);
      PublishedIsValid(w.doc, g);
    }
  }

  lemma TurnsAway(w: World, g: D.Group, expected: int, profiles: map<string, string>, env: PublishEnv)
    requires D.Valid(w.doc) && g in w.doc.groups && !w.locked
    ensures TurnedAway(w, g, expected, profiles) ==> PublishGroup(w, g.id, expected, profiles, env) == Outcome(w, Rejected)
    ensures !TurnedAway(w, g, expected, profiles) ==>
              && Materialized(g.body, profiles).Some?
              && PublishGroup(w, g.id, expected, profiles, env)
                 == Transacted(w, g.id, Materialized(g.body, profiles).value, env)
  {
    hide Transacted, D.Find;
    FoundIs(w.doc, g);
  }

  /** When preparing and activating give a receipt, and when it is certain. */
  lemma IsActivated(h: Host, candidate: Candidate, env: PublishEnv)
    requires AtRest(h)
    ensures var p := ControllerPrepare(h, candidate, env.prepare);
            && (p.record.Some? <==> PrepareGoesWell(env.prepare) && candidate.revision > h.config.group.revision)
            && (p.record.Some? ==>
                  var a := ControllerActivate(p.host, p.record.value, env.activate);
                  && (a.receipt && !a.uncertain <==> ActivateGoesWell(env.activate))
                  && (ReplyGetsLost(env.activate) ==> a.receipt && a.uncertain)
                  && (ActivateGoesWell(env.activate) || ReplyGetsLost(env.activate) ==>
                        && HostInv(a.host) && Serves(a.host, WithGroup(h.config, candidate))
                        && (env.activate.host.described ==> AtRest(a.host))))
  {
    PrepareSucceeds(h, candidate, env.prepare);
    ControllerPrepareKeeps(h, candidate, env.prepare);
    var p := ControllerPrepare(h, candidate, env.prepare);
    hide ControllerPrepare;
    if p.record.Some? {
      Receipt(h, p.host, p.record.value, WithGroup(h.config, candidate), env.activate);
    }
  }

  lemma Receipt(h: Host, h': Host, r: Record, c: Config, env: ActivateStep)
    requires AtRest(h) && HostInv(h') && HoldsFor(h, h', c) && c.group.revision > h.config.group.revision
    requires r.sha == ConfigSha(c) && r.revision == c.group.revision && r.groupId == c.group.groupId
    requires r.previousRevision == h.config.group.revision
    ensures var a := ControllerActivate(h', r, env);
            && (a.receipt && !a.uncertain <==> ActivateGoesWell(env))
            && (ReplyGetsLost(env) ==> a.receipt && a.uncertain)
            && (ActivateGoesWell(env) || ReplyGetsLost(env) ==>
                  HostInv(a.host) && Serves(a.host, c) && (env.host.described ==> AtRest(a.host)))
  {
    Untimely(h', Some(r.previousRevision), env.verify);
    if Answered(env.verify) && !env.verify.late {
      VerifySucceeds(h', Some(r.previousRevision), env.verify);
      ActivateSucceeds(h, h', c, env.host);
      var a := Activate(h', r.revision, r.sha, env.host);
      if ReplyGetsLost(env) {
        NothingToExpire(a.host, env.recheck);
      }
      hide Activate, VerifiedRuntime, AskStatus;
    } else {
      var v := VerifiedRuntime(h', Some(r.previousRevision), env.verify);
      NoCandidate(v.host, r.revision, r.sha, env.host);
      hide Activate, VerifiedRuntime, AskStatus;
    }
  }

  /** Asking late drops the candidate; not being answered gives no status. */
  lemma Untimely(h: Host, expected: Option<int>, env: VerifyEnv)
    requires HostInv(h)
    ensures var v := VerifiedRuntime(h, expected, env);
            && (v.status.Some? ==> Answered(env)) && v.host.config == h.config
            && HostInv(v.host) && (v.status.Some? && env.late ==> v.host.prepared == None)
  {
  }

  lemma NoCandidate(h: Host, revision: int, sha: Sha, env: ActivateEnv)
    requires HostInv(h)
    ensures revision != h.config.group.revision && h.prepared == None ==> !Activate(h, revision, sha, env).reply.IsActive?
  {
    ActivateOutcome(h, revision, sha, env);
  }

  lemma NothingToExpire(h: Host, env: VerifyEnv)
    requires h.prepared == None && Answered(env)
    ensures AskStatus(h, env) == Verification(h, Some(StatusOf(h)))
  {
  }

  lemma PublishedIsValid(doc: D.Document, g: D.Group)
    requires D.Valid(doc) && g in doc.groups
    ensures D.Valid(doc.(revision := doc.revision + 1, active := Some(g.id)))
    ensures D.Valid(doc.(revision := doc.revision + 2))
  {
  }

  /**
   The document cannot be saved, or the reply of the activation gets lost, but everything else goes
   well: the publish is taken back.
   */
  lemma PublishIsTakenBack(w: World, g: D.Group, profiles: map<string, string>, env: PublishEnv)
    requires AtRest(w.host) && D.Valid(w.doc) && g in w.doc.groups && !w.locked && env.rival.None?
    requires !TurnedAway(w, g, w.doc.revision, profiles) && w.doc.revision >= w.host.config.group.revision
    requires PrepareGoesWell(env.prepare) && env.activate.host.described
    requires (ActivateGoesWell(env.activate) && !env.saved) || ReplyGetsLost(env.activate)
    requires RollbackGoesWell(env.rollback) && env.compensationSaved
    ensures PublishGroup(w, g.id, w.doc.revision, profiles, env).ending == CompensatedEnding
  {
    hide D.Find, D.Valid, ControllerPrepare, ControllerActivate, HostInv, ControllerRollback, TurnedAway;
    MaterializedIs(g, profiles);
    TurnsAway(w, g, w.doc.revision, profiles, env);
    var candidate := Candidate(w.doc.revision + 1, g.id, Materialized(g.body, profiles).value);
    IsActivated(w.host, candidate, env);
    PublishedIsValid(w.doc, g);
    ControllerPrepareKeeps(w.host, candidate, env.prepare) by { AtRestIsInv(w.host); }
    var p := ControllerPrepare(w.host, candidate, env.prepare);
    var a := ControllerActivate(p.host, p.record.value, env.activate);
    RollbackSucceeds(a.host, p.record.value, WithGroup(w.host.config, candidate), env.rollback);
  }

  lemma AtRestIsInv(h: Host)
    requires AtRest(h)
    ensures HostInv(h)
  {
  }

  lemma RollbackSucceeds(h: Host, r: Record, c: Config, env: RollbackStep)
    requires HostInv(h) && AtRest(h) && Serves(h, c) && RollbackGoesWell(env)
    requires r.sha == ConfigSha(c) && r.revision == c.group.revision && r.groupId == c.group.groupId
    requires Succeeds(Compensating(r), c) && r.previous.group.groupId == r.previousGroupId
    ensures ControllerRollback(h, r, env).done
  {
    var back := Compensating(r);
    VerifySucceeds(h, Some(r.revision), env.before);
    PrepareOutcome(h, back, env.prepare);
    PrepareKeeps(h, back, env.prepare);
    var p := Prepare(h, back, env.prepare);
    hide Prepare;
    ActivateSucceeds(h, p.host, back, env.activate);
    var a := Activate(p.host, r.revision + 1, p.reply.sha, env.activate);
    hide Activate;
    VerifySucceeds(a.host, Some(r.revision + 1), env.after);
    hide VerifiedRuntime;
  }

  // ------------------------------------------------------------ when it comes to nothing

  predicate AbortGoesWell(env: AbortStep) {
    Answered(env.verify) && !env.verify.late && env.delivery == Delivered && !env.late && env.unlinked
  }

  /** The activation is not acknowledged and has not touched what the gateway serves. */
  predicate ComesToNothing(w: World, candidate: Candidate, env: PublishEnv) {
    var p := ControllerPrepare(w.host, candidate, env.prepare);
    p.record.Some? ==>
      var a := ControllerActivate(p.host, p.record.value, env.activate);
      !a.receipt && OnlyPending(w.host, a.host)
  }

  /** An attempt to activate leaves the candidate, or none. */
  lemma CandidateStaysOrGoes(h: Host, r: Record, env: ActivateStep)
    ensures var h' := ControllerActivate(h, r, env).host;
            h'.prepared == h.prepared || h'.prepared == None
  {
    hide Follows, ConfigSha;
  }

  /** An activation that came to nothing is aborted: nothing is served that was not, and no candidate is left. */
  lemma FailedActivationIsAborted(w: World, g: D.Group, profiles: map<string, string>, env: PublishEnv)
    requires AtRest(w.host) && D.Valid(w.doc) && g in w.doc.groups && !w.locked && env.rival.None?
    requires !TurnedAway(w, g, w.doc.revision, profiles) && w.doc.revision >= w.host.config.group.revision
    requires PrepareGoesWell(env.prepare) && AbortGoesWell(env.abort)
    requires Materialized(g.body, profiles).Some? ==>
               ComesToNothing(w, Candidate(w.doc.revision + 1, g.id, Materialized(g.body, profiles).value), env)
    ensures var o := PublishGroup(w, g.id, w.doc.revision, profiles, env);
            && o.ending == Rejected && o.world.doc == w.doc && o.world.host.prepared == None
            && OnlyPending(w.host, o.world.host)
  {
    hide D.Find, ControllerPrepare, ControllerActivate, HostInv, ControllerAbort;
    FoundIs(w.doc, g);
    MaterializedIs(g, profiles);
    AtRestIsInv(w.host);
    var candidate := Candidate(w.doc.revision + 1, g.id, Materialized(g.body, profiles).value);
    PrepareSucceeds(w.host, candidate, env.prepare);
    ControllerPrepareKeeps(w.host, candidate, env.prepare);
    var p := ControllerPrepare(w.host, candidate, env.prepare);
    var c := WithGroup(w.host.config, candidate);
    ControllerActivateOutcomes(p.host, p.record.value, c, env.activate);
    var a := ControllerActivate(p.host, p.record.value, env.activate);
    CandidateStaysOrGoes(p.host, p.record.value, env.activate);
    AbortSucceeds(w.host, a.host, p.record.value, c, env.abort);
    if OnlyPending(a.host, ControllerAbort(a.host, p.record.value, env.abort).host) {
      PendingCompose(w.host, a.host, ControllerAbort(a.host, p.record.value, env.abort).host);
    }
  }

  lemma AbortSucceeds(h: Host, h': Host, r: Record, c: Config, env: AbortStep)
    requires AtRest(h) && HostInv(h') && OnlyPending(h, h') && AbortGoesWell(env)
    requires r.previousRevision == h.config.group.revision && r.revision == c.group.revision && r.sha == ConfigSha(c)
    requires h'.prepared.Some? ==>
               h'.prepared.value.config == c && h'.prepared.value.baseRevision == h.config.group.revision
    ensures var b := ControllerAbort(h', r, env);
            b.done && b.host.prepared == None && OnlyPending(h', b.host)
  {
    VerifySucceeds(h', Some(r.previousRevision), env.verify);
    AbortOutcome(h', r.revision, r.sha, env.late, env.unlinked);
    hide Abort, VerifiedRuntime;
  }
}
