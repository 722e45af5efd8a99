/**
 Publishing while the gateway process may die and come back: between any two requests of the
 transaction, and inside the activation after the file has been replaced.
 */
module PublishRestarts {
  import opened Common
  import D = FailoverDocument
  import opened H = GatewayHost
  import R = GatewayHostRuns
  import opened P = Publish

  datatype Turn = Stays | Restarts(env: RecoverEnv)

  /** The process is replaced by one that starts from its disk, or cannot start. */
  function Turned(h: Host, t: Turn): Host {
    match t
    case Stays => h
    case Restarts(env) =>
      (match Restart(h.disk, env)
       case Some(next) => next
       case None => h.(phase := HostFailed))
  }

  /** The process dies inside the activation, leaving this disk, and another one starts. */
  datatype Cut = Cut(disk: Disk, env: RecoverEnv)

  /** When the process is replaced; `inRollback` is what a compensation that met a restart left running. */
  datatype Turns = Turns(beforeActivate: Turn, cut: Option<Cut>, afterActivate: Turn, inRollback: Option<Host>)

  predicate CutHappens(h: Host, r: Record, env: ActivateStep, cut: Option<Cut>) {
    && cut.Some? && Arrives(env.delivery) && R.MidActivation(h, cut.value.disk)
    && h.prepared.value.sha == r.sha && Restart(cut.value.disk, cut.value.env).Some?
  }

  /** `activate`, when the gateway may die in it: no reply, then the status of whoever runs. */
  function ActivateThrough(h: Host, r: Record, env: ActivateStep, cut: Option<Cut>): Activation {
    var verified := VerifiedRuntime(h, Some(r.previousRevision), env.verify);
    if verified.status.Some? && CutHappens(verified.host, r, env, cut) then
      var next := Restart(cut.value.disk, cut.value.env).value;
      var asked := if env.recheck.identity then AskStatus(next, env.recheck) else Verification(next, None);
      var active := asked.status.Some? && asked.status.value.revision == r.revision
                    && asked.status.value.groupId == r.groupId;
      Activation(asked.host, active, active)
    else ControllerActivate(h, r, env)
  }

  predicate Replaced(h: Host, r: Record, env: ActivateStep, turns: Turns) {
    || turns.beforeActivate.Restarts? || turns.afterActivate.Restarts?
    || (var verified := VerifiedRuntime(h, Some(r.previousRevision), env.verify);
        verified.status.Some? && CutHappens(verified.host, r, env, turns.cut))
  }

  /** The compensation checks, before and after, that the process is still the one that prepared. */
  function CompensatedBy(w: World, loaded: D.Document, r: Record, env: PublishEnv, replaced: bool, left: Option<Host>)
    : Outcome
  {
    if replaced then Marked(w, env.marked)
    else if left.Some? then Marked(w.(host := left.value), env.marked)
    else Compensated(w, loaded, r, env)
  }

  /** `Transacted` with restarts. */
  function TransactedThrough(w: World, id: string, routes: Routes, env: PublishEnv, turns: Turns): Outcome {
    var loaded := w.doc;
    var next := loaded.revision + 1;
    var p := ControllerPrepare(w.host, Candidate(next, id, routes), env.prepare);
    if p.record.None? then Outcome(w.(host := p.host), Rejected)
    else
      var r := p.record.value;
      var before := Turned(p.host, turns.beforeActivate);
      var replaced := Replaced(before, r, env.activate, turns);
      var a := ActivateThrough(before, r, env.activate, turns.cut);
      var w := w.(host := Turned(a.host, turns.afterActivate));
      if !a.receipt then
        var aborted := ControllerAbort(w.host, r, env.abort);
        var w := w.(host := aborted.host);
        if aborted.done then Outcome(w, Rejected) else Marked(w, env.marked)
      else if a.uncertain then CompensatedBy(w, loaded, r, env, replaced, turns.inRollback)
      else
        var w := if env.rival.Some? then w.(doc := env.rival.value) else w;
        match D.Save(w.doc, loaded.(revision := next, active := Some(id)), loaded.revision, 1, env.saved)
        case Ok(d) => Outcome(w.(doc := d), Published)
        case Err(_) => CompensatedBy(w, loaded, r, env, replaced, turns.inRollback)
  }

  /** The documented endings; a restart may have refreshed everything but what the gateway serves. */
  predicate DocumentedThrough(w: World, w': World, id: string, routes: Routes) {
    Documented(w, w', id, routes) || (w'.doc == w.doc && SameActive(w.host, w'.host) && !w'.locked)
  }

  // -------------------------------------------------------------------- what turns keep

  lemma TurnKeepsReady(h: Host, t: Turn)
    requires Ready(h)
    ensures Ready(Turned(h, t)) && SameActive(h, Turned(h, t))
    ensures t == Stays ==> Turned(h, t) == h
  {
    if t.Restarts? {
      RestartKeepsInv(h.disk, t.env);
    }
  }

  lemma TurnKeepsServing(h: Host, t: Turn, c: Config)
    requires HostInv(h) && Serves(h, c)
    ensures HostInv(Turned(h, t)) && Serves(Turned(h, t), c)
  {
    if t.Restarts? {
      RestartKeepsInv(h.disk, t.env);
    }
  }

  /**
   After an activation of `c` on `h`, wherever it stopped: `c` is served, nothing that is served
   changed, or the host is down, with the old file or that of `c`.
   */
  predicate Settled(h: Host, h': Host, c: Config) {
    && HostInv(h')
    && (|| Serves(h', c)
        || (SameActive(h, h') && Ready(h'))
        || (h'.phase == HostFailed && h'.config == h.config && SameOr(h, h', c)))
  }

  predicate SameOr(h: Host, h': Host, c: Config) {
    h'.disk.active == h.disk.active || h'.disk.active == Canonical(c)
  }

  lemma TurnSettles(h: Host, h': Host, t: Turn, c: Config)
    requires Ready(h) && Settled(h, h', c)
    ensures Settled(h, Turned(h', t), c)
  {
    if t.Restarts? && Restart(h'.disk, t.env).Some? {
      RestartKeepsInv(h'.disk, t.env);
    }
  }

  /** A failed rollback leaves the candidate in the file; every other failure leaves the file. */
  lemma ActivateLeavesFile(h: Host, c: Config, env: ActivateEnv)
    requires HostInv(h)
    ensures var a := Activate(h, c.group.revision, ConfigSha(c), env);
            a.host.disk.active == h.disk.active || a.host.disk.active == Canonical(c)
  {
  }

  lemma AskKeepsFile(h: Host, env: VerifyEnv)
    ensures AskStatus(h, env).host.disk.active == h.disk.active && AskStatus(h, env).host.phase == h.phase
  {
  }

  lemma ActivateSettles(h: Host, r: Record, c: Config, env: ActivateStep)
    requires Ready(h) && r.sha == ConfigSha(c) && r.revision == c.group.revision && r.groupId == c.group.groupId
    requires r.previousRevision == h.config.group.revision < r.revision
    ensures var a := ControllerActivate(h, r, env);
            Settled(h, a.host, c) && (a.receipt ==> Serves(a.host, c))
  {
    ControllerActivateOutcomes(h, r, c, env);
    VerifyKeeps(h, Some(r.previousRevision), env.verify);
    var v := VerifiedRuntime(h, Some(r.previousRevision), env.verify).host;
    ActivateLeavesFile(v, c, env.host);
    hide Activate, VerifiedRuntime, AskStatus, Serves;
    var a := if Arrives(env.delivery) then Activate(v, r.revision, r.sha, env.host) else Answer(v, Refused(NotRunning));
    AskKeepsFile(a.host, env.recheck);
  }

  /** A host that died inside the activation of `c` comes back serving `c`. */
  lemma CutServes(h: Host, r: Record, c: Config, env: ActivateStep, cut: Option<Cut>)
    requires HostInv(h) && r.sha == ConfigSha(c) && CutHappens(h, r, env, cut)
    ensures var next := Restart(cut.value.disk, cut.value.env).value;
            HostInv(next) && Serves(next, c)
  {
    RestartKeepsInv(cut.value.disk, cut.value.env);
  }

  lemma AskKeepsServing(h: Host, env: VerifyEnv, c: Config)
    requires HostInv(h) && Serves(h, c)
    ensures HostInv(AskStatus(h, env).host) && Serves(AskStatus(h, env).host, c)
  {
    AskKeeps(h, env);
  }

  lemma ThroughSettles(h: Host, r: Record, c: Config, env: ActivateStep, cut: Option<Cut>)
    requires Ready(h) && r.sha == ConfigSha(c) && r.revision == c.group.revision && r.groupId == c.group.groupId
    requires r.previousRevision == h.config.group.revision < r.revision
    ensures var a := ActivateThrough(h, r, env, cut);
            && Settled(h, a.host, c) && (a.receipt ==> Serves(a.host, c))
  {
    hide ControllerActivate, VerifiedRuntime, CutHappens, Serves, AskStatus;
    ActivateSettles(h, r, c, env);
    VerifyKeeps(h, Some(r.previousRevision), env.verify);
    var v := VerifiedRuntime(h, Some(r.previousRevision), env.verify);
    if v.status.Some? && CutHappens(v.host, r, env, cut) {
      CutServes(v.host, r, c, env, cut);
      CutRestarts(v.host, r, env, cut);
      AskKeepsServing(Restart(cut.value.disk, cut.value.env).value, env.recheck, c);
    }
  }

  lemma CutRestarts(h: Host, r: Record, env: ActivateStep, cut: Option<Cut>)
    requires CutHappens(h, r, env, cut)
    ensures cut.Some? && Restart(cut.value.disk, cut.value.env).Some?
  {
  }

  /** An abort succeeds only on a host that serves what was served before. */
  lemma AbortFindsSame(h: Host, h': Host, r: Record, c: Config, env: AbortStep)
    requires Ready(h) && Settled(h, h', c) && r.previousRevision == h.config.group.revision < c.group.revision
    ensures ControllerAbort(h', r, env).done ==> SameActive(h, ControllerAbort(h', r, env).host)
  {
    UntouchedByAbort(h', r, env);
    hide Abort, Serves;
    ServesItsRevision(h', c);
    VerifyKeeps(h', Some(r.previousRevision), env.verify);
    AbortKeeps(VerifiedRuntime(h', Some(r.previousRevision), env.verify).host, r.revision, r.sha, env.late, env.unlinked);
  }

  // ------------------------------------------------------------------ the endings

  lemma CompensatedByEndings(w: World, w': World, id: string, routes: Routes, r: Record, env: PublishEnv, replaced: bool,
                             left: Option<Host>)
    requires HostInv(w'.host) && !w'.locked && r.revision == w.doc.revision + 1
    requires r.previous == w.host.config
    requires var c := w.host.config.(group := GroupConfig(w.doc.revision + 1, id, routes));
             Serves(w'.host, c) && r.sha == ConfigSha(c)
    ensures var o := CompensatedBy(w', w.doc, r, env, replaced, left);
            o.ending == Unmarked || DocumentedThrough(w, o.world, id, routes)
    ensures CompensatedBy(w', w.doc, r, env, replaced, left).ending == Unmarked ==> !env.marked
  {
    hide ControllerRollback, Serves;
    var c := w.host.config.(group := GroupConfig(w.doc.revision + 1, id, routes));
    if !replaced && left.None? {
      CompensatedEndings(w', w.doc, r, c, env);
    }
  }

  /**
   With the gateway dying and restarting at any of these points, a publish still ends with document
   and gateway together at the new group, together at the old content two revisions up, both as they
   were, or locked, unless the marker cannot be written.
   */
  lemma RestartedEndings(w: World, id: string, routes: Routes, env: PublishEnv, turns: Turns)
    requires HostInv(w.host) && !w.locked && (env.rival.Some? ==> env.rival.value.revision > w.doc.revision)
    ensures var o := TransactedThrough(w, id, routes, env, turns);
            && (o.ending == Unmarked || DocumentedThrough(w, o.world, id, routes))
            && (o.ending == Unmarked ==> !env.marked)
  {
    hide ControllerPrepare, ActivateThrough, ControllerAbort, Replaced, Serves, Ready, Turned, CompensatedBy, HostInv, Settled;
    var candidate := Candidate(w.doc.revision + 1, id, routes);
    ControllerPrepareKeeps(w.host, candidate, env.prepare);
    var p := ControllerPrepare(w.host, candidate, env.prepare);
    if p.record.Some? {
      var r, c := p.record.value, WithGroup(w.host.config, candidate);
      TurnKeepsReady(p.host, turns.beforeActivate);
      var before := Turned(p.host, turns.beforeActivate);
      ThroughSettles(before, r, c, env.activate, turns.cut);
      var a := ActivateThrough(before, r, env.activate, turns.cut);
      TurnSettles(before, a.host, turns.afterActivate, c);
      var after := Turned(a.host, turns.afterActivate);
      var replaced := Replaced(before, r, env.activate, turns);
      SettledIsInv(before, after, c);
      SettledIsInv(before, a.host, c);
      if !a.receipt {
        AbortFindsSame(before, after, r, c, env.abort);
      } else {
        TurnKeepsServing(a.host, turns.afterActivate, c);
        CompensatedByEndings(w, w.(host := after), id, routes, r, env, replaced, turns.inRollback);
        if env.rival.Some? {
          CompensatedByEndings(w, w.(host := after, doc := env.rival.value), id, routes, r, env, replaced, turns.inRollback);
        }
      }
    }
  }

  lemma SettledIsInv(h: Host, h': Host, c: Config)
    requires Settled(h, h', c)
    ensures HostInv(h')
  {
  }
}
