/**
 Publishing a group (backend/failover.py, backend/gateway_controller.py): the
 service drives the gateway through the controller, request by request, and
 saves the document; every failure ends in an abort, a compensation or a lock.
 */
module Publish {
  import opened Common
  import D = FailoverDocument
  import opened H = GatewayHost

  /** The fate of one control request; its effect is settled before the next request. */
  datatype Delivery = Undelivered | Delivered | ReplyLost

  predicate Arrives(d: Delivery) { d != Undelivered }

  // ------------------------------------------------------------- the controller

  /** What `status` reports. */
  datatype Status = Status(revision: int, sha: Sha, groupId: string)

  function StatusOf(h: Host): Status {
    Status(h.config.group.revision, h.configSha, h.config.group.groupId)
  }

  /** Identity checks, the delivery of the status request, and whether it finds the candidate expired. */
  datatype VerifyEnv = VerifyEnv(identity: bool, delivery: Delivery, late: bool, unlinked: bool)

  datatype Verification = Verification(host: Host, status: Option<Status>)

  /** `status` expires a stale candidate as a side effect. */
  function AskStatus(h: Host, env: VerifyEnv): Verification {
    if !Arrives(env.delivery) then Verification(h, None)
    else
      var h := Expired(h, env.late, env.unlinked);
      Verification(h, if env.delivery == Delivered then Some(StatusOf(h)) else None)
  }

  /** `_verified_runtime`: the descriptor, the process and the status must agree. */
  function VerifiedRuntime(h: Host, expected: Option<int>, env: VerifyEnv): Verification {
    if !env.identity || (expected.Some? && h.descriptorRevision != expected.value) then Verification(h, None)
    else
      var asked := AskStatus(h, env);
      if asked.status.Some? && asked.status.value.revision != h.descriptorRevision then Verification(asked.host, None)
      else asked
  }

  datatype Candidate = Candidate(revision: int, groupId: string, routes: Routes)

  /** `_PreparedRecord`, and the receipt made from it. */
  datatype Record = Record(
    revision: int,
    groupId: string,
    sha: Sha,
    previousRevision: int,
    previousGroupId: string,
    previous: Config)

  /** `_lifecycle_candidate`: the running document with another group. */
  function WithGroup(c: Config, candidate: Candidate): Config {
    c.(group := GroupConfig(candidate.revision, candidate.groupId, candidate.routes))
  }

  datatype PrepareStep = PrepareStep(verify: VerifyEnv, fileRead: bool, credentials: bool, delivery: Delivery, host: PrepareEnv)

  datatype Prepared' = Prepared'(host: Host, record: Option<Record>)

  /** `ProductionGatewayController.prepare`. */
  function ControllerPrepare(h: Host, candidate: Candidate, env: PrepareStep): Prepared' {
    var verified := VerifiedRuntime(h, None, env.verify);
    var h := verified.host;
    if verified.status.None? || candidate.revision <= h.descriptorRevision
       || !env.fileRead || !h.disk.active.Text? || !env.credentials || !Arrives(env.delivery)
    then Prepared'(h, None)
    else
      var previous := h.disk.active.config;
      var a := Prepare(h, WithGroup(previous, candidate), env.host);
      if env.delivery == Delivered && (a.reply.IsPrepared? || a.reply.IsActive?) && a.reply.revision == candidate.revision then
        Prepared'(a.host, Some(Record(candidate.revision, candidate.groupId, a.reply.sha, h.descriptorRevision,
                                      verified.status.value.groupId, previous)))
      else Prepared'(a.host, None)
  }

  datatype ActivateStep = ActivateStep(verify: VerifyEnv, delivery: Delivery, host: ActivateEnv, recheck: VerifyEnv)

  /** A receipt is known, known only through the status, or missing. */
  datatype Activation = Activation(host: Host, receipt: bool, uncertain: bool)

  predicate Acknowledged(reply: Reply, delivery: Delivery, revision: int, sha: Sha) {
    delivery == Delivered && reply == IsActive(revision, sha)
  }

  /** `ProductionGatewayController.activate`. */
  function ControllerActivate(h: Host, r: Record, env: ActivateStep): Activation {
    var verified := VerifiedRuntime(h, Some(r.previousRevision), env.verify);
    var h := verified.host;
    if verified.status.None? then Activation(h, false, false)
    else
      var a := if Arrives(env.delivery) then Activate(h, r.revision, r.sha, env.host) else Answer(h, Refused(NotRunning));
      if Acknowledged(a.reply, env.delivery, r.revision, r.sha) then Activation(a.host, true, false)
      else
        var asked := if env.recheck.identity then AskStatus(a.host, env.recheck) else Verification(a.host, None);
        var active := asked.status.Some? && asked.status.value.revision == r.revision
                      && asked.status.value.groupId == r.groupId;
        Activation(asked.host, active, active)
  }

  datatype RollbackStep = RollbackStep(
    before: VerifyEnv,
    fileRead: bool,
    prepareDelivery: Delivery,
    prepare: PrepareEnv,
    activateDelivery: Delivery,
    activate: ActivateEnv,
    after: VerifyEnv)

  datatype Compensation = Compensation(host: Host, done: bool)

  /** The previous configuration, raised above the one being taken back. */
  function Compensating(r: Record): Config {
    r.previous.(group := r.previous.group.(revision := r.revision + 1))
  }

  /** `ProductionGatewayController.rollback`. */
  function ControllerRollback(h: Host, r: Record, env: RollbackStep): Compensation {
    var verified := VerifiedRuntime(h, Some(r.revision), env.before);
    var h := verified.host;
    if verified.status.None? || verified.status.value.groupId != r.groupId || verified.status.value.sha != r.sha
       || !env.fileRead || !h.disk.active.Text? || ConfigSha(h.disk.active.config) != r.sha || !Arrives(env.prepareDelivery)
    then Compensation(h, false)
    else
      var p := Prepare(h, Compensating(r), env.prepare);
      if env.prepareDelivery != Delivered || !(p.reply.IsPrepared? || p.reply.IsActive?) || !Arrives(env.activateDelivery) then
        Compensation(p.host, false)
      else
        var a := Activate(p.host, r.revision + 1, p.reply.sha, env.activate);
        if !Acknowledged(a.reply, env.activateDelivery, r.revision + 1, p.reply.sha) then Compensation(a.host, false)
        else
          var checked := VerifiedRuntime(a.host, Some(r.revision + 1), env.after);
          Compensation(checked.host,
                       checked.status.Some? && checked.status.value.groupId == r.previousGroupId
                       && checked.status.value.sha == p.reply.sha)
  }

  datatype AbortStep = AbortStep(verify: VerifyEnv, delivery: Delivery, late: bool, unlinked: bool)

  /** `ProductionGatewayController.abort`; `done` is false when it raises. */
  function ControllerAbort(h: Host, r: Record, env: AbortStep): Compensation {
    var verified := VerifiedRuntime(h, Some(r.previousRevision), env.verify);
    if verified.status.None? || !Arrives(env.delivery) then Compensation(verified.host, false)
    else
      var a := Abort(verified.host, r.revision, r.sha, env.late, env.unlinked);
      Compensation(a.host, env.delivery == Delivered && a.reply.Aborted?)
  }

  // ---------------------------------------------------------------- the service

  datatype World = World(doc: D.Document, locked: bool, host: Host)

  datatype Ending =
    | Locked
    | Rejected
    | Published
    | CompensatedEnding
    | StateUncertain
    /** The marker itself could not be written. */
    | Unmarked

  datatype PublishEnv = PublishEnv(
    prepare: PrepareStep,
    activate: ActivateStep,
    /** A document another process saves between the activation and our save. */
    rival: Option<D.Document>,
    saved: bool,
    rollback: RollbackStep,
    compensationSaved: bool,
    abort: AbortStep,
    marked: bool)

  datatype Outcome = Outcome(world: World, ending: Ending)

  /** `mark_state_uncertain`. */
  function Marked(w: World, marked: bool): Outcome {
    if marked then Outcome(w.(locked := true), StateUncertain) else Outcome(w, Unmarked)
  }

  /** `_materialize_candidate`: both profiles must resolve. */
  function Materialized(b: D.GroupBody, profiles: map<string, string>): Option<Routes> {
    if b.primary in profiles && b.backup in profiles && b.primary != b.backup
    then Some(Routes(profiles[b.primary], profiles[b.backup], b.settings))
    else None
  }

  /** The branch taken once the gateway is known to run the new group but the document is not saved. */
  function Compensated(w: World, loaded: D.Document, r: Record, env: PublishEnv): Outcome {
    var c := ControllerRollback(w.host, r, env.rollback);
    var w := w.(host := c.host);
    if !c.done then Marked(w, env.marked)
    else
      match D.Save(w.doc, loaded.(revision := r.revision + 1), loaded.revision, 2, env.compensationSaved)
      case Ok(d) => Outcome(w.(doc := d), CompensatedEnding)
      case Err(_) => Marked(w, env.marked)
  }

  /** `publish_group` once the candidate is materialized. */
  function Transacted(w: World, id: string, routes: Routes, env: PublishEnv): Outcome {
    var loaded := w.doc;
    var next := loaded.revision + 1;
    var p := ControllerPrepare(w.host, Candidate(next, id, routes), env.prepare);
    var w := w.(host := p.host);
    if p.record.None? then Outcome(w, Rejected)
    else
      var r := p.record.value;
      var a := ControllerActivate(w.host, r, env.activate);
      var w := w.(host := a.host);
      if !a.receipt then
        var aborted := ControllerAbort(w.host, r, env.abort);
        var w := w.(host := aborted.host);
        if aborted.done then Outcome(w, Rejected) else Marked(w, env.marked)
      else if a.uncertain then Compensated(w, loaded, r, env)
      else
        var w := if env.rival.Some? then w.(doc := env.rival.value) else w;
        match D.Save(w.doc, loaded.(revision := next, active := Some(id)), loaded.revision, 1, env.saved)
        case Ok(d) => Outcome(w.(doc := d), Published)
        case Err(_) => Compensated(w, loaded, r, env)
  }

  function PublishGroup(w: World, id: string, expected: int, profiles: map<string, string>, env: PublishEnv): Outcome {
    if w.locked then Outcome(w, Locked)
    else if w.doc.revision != expected || !D.HasGroup(w.doc.groups, id) then Outcome(w, Rejected)
    else
      var g := D.Find(w.doc.groups, id);
      var routes := Materialized(g.body, profiles);
      if !g.enabled || routes.None? then Outcome(w, Rejected)
      else Transacted(w, id, routes.value, env)
  }

  // ----------------------------------------------------------------- four endings

  /** The gateway serves `c` in memory, provider, file and hashes. */
  predicate Serves(h: Host, c: Config) {
    && Up(h) && h.config == c && h.provider == c.group
    && h.configSha == ConfigSha(c) && h.disk.active == Canonical(c) && h.fileSha == h.configSha
  }

  /** Only the candidate and its pending file may differ. */
  predicate OnlyPending(a: Host, b: Host) {
    b == a.(prepared := b.prepared, disk := a.disk.(pending := b.disk.pending))
  }

  /** A gateway at rest: coherent, and its file untouched since it last read or wrote it. */
  predicate Ready(h: Host) {
    HostInv(h) && Up(h) && h.fileSha == Sha(h.disk.active)
  }

  lemma AskKeeps(h: Host, env: VerifyEnv)
    requires HostInv(h)
    ensures var v := AskStatus(h, env);
            && HostInv(v.host) && OnlyPending(h, v.host)
            && (v.status.Some? ==> v.status.value == StatusOf(h))
  {
  }

  lemma VerifyKeeps(h: Host, expected: Option<int>, env: VerifyEnv)
    requires HostInv(h)
    ensures var v := VerifiedRuntime(h, expected, env);
            && HostInv(v.host) && OnlyPending(h, v.host)
            && (v.status.Some? ==>
                  && v.status.value == StatusOf(h)
                  && h.config.group.revision == h.descriptorRevision
                  && (expected.Some? ==> h.config.group.revision == expected.value))
  {
    AskKeeps(h, env);
  }

  lemma PrepareKeeps(h: Host, c: Config, env: PrepareEnv)
    requires HostInv(h)
    ensures var a := Prepare(h, c, env);
            && HostInv(a.host) && OnlyPending(h, a.host)
            && (a.reply.IsPrepared? || a.reply.IsActive? ==> a.reply.sha == ConfigSha(c) && a.reply.revision == c.group.revision)
            && (a.reply.IsPrepared? ==> c.group.revision > h.config.group.revision)
  {
    StepKeepsInv(h, OpPrepare(c, env));
  }

  lemma AbortKeeps(h: Host, revision: int, sha: Sha, late: bool, unlinked: bool)
    requires HostInv(h)
    ensures var a := Abort(h, revision, sha, late, unlinked);
            && HostInv(a.host) && OnlyPending(h, a.host)
            && (a.reply.Aborted? ==> Up(h))
  {
    StepKeepsInv(h, OpAbort(revision, sha, late, unlinked));
  }

  /** Asking to activate `c` above the running revision: it serves `c`, nothing changed, or the host is down. */
  lemma ActivateOutcomes(h: Host, c: Config, env: ActivateEnv)
    requires HostInv(h) && c.group.revision != h.config.group.revision
    ensures var a := Activate(h, c.group.revision, ConfigSha(c), env);
            && HostInv(a.host)
            && (if a.reply == IsActive(c.group.revision, ConfigSha(c)) then Serves(a.host, c)
                else OnlyPending(h, a.host) || (a.host.phase == HostFailed && a.host.config == h.config
                                                && a.host.descriptorRevision == h.descriptorRevision))
  {
    StepKeepsInv(h, OpActivate(c.group.revision, ConfigSha(c), env));
  }

  /** Nothing is prepared on a gateway that is down or whose file somebody has rewritten. */
  lemma PrepareNeedsReady(h: Host, c: Config, env: PrepareEnv)
    requires HostInv(h)
    ensures var a := Prepare(h, c, env);
            a.reply.IsPrepared? || a.reply.IsActive? ==> Up(h) && h.fileSha == Sha(h.disk.active)
  {
  }

  lemma ControllerPrepareKeeps(h: Host, candidate: Candidate, env: PrepareStep)
    requires HostInv(h)
    ensures var p := ControllerPrepare(h, candidate, env);
            && HostInv(p.host) && OnlyPending(h, p.host)
            && (p.record.Some? ==>
                  && Ready(h) && Ready(p.host)
                  && p.record.value == Record(candidate.revision, candidate.groupId, ConfigSha(WithGroup(h.config, candidate)),
                                           h.config.group.revision, h.config.group.groupId, h.config)
                  && candidate.revision > h.config.group.revision)
  {
    hide Prepare, VerifiedRuntime;
    VerifyKeeps(h, None, env.verify);
    var v := VerifiedRuntime(h, None, env.verify).host;
    if v.disk.active.Text? {
      PrepareKeeps(v, WithGroup(v.disk.active.config, candidate), env.host);
      PrepareNeedsReady(v, WithGroup(v.disk.active.config, candidate), env.host);
    }
  }

  /** What became of an activation: the new group is served, nothing changed, or the host is down. */
  predicate AfterActivation(h: Host, h': Host, c: Config) {
    || Serves(h', c)
    || (OnlyPending(h, h') && Up(h'))
    || (h'.phase == HostFailed && h'.config == h.config)
  }

  lemma ControllerActivateOutcomes(h: Host, r: Record, c: Config, env: ActivateStep)
    requires Ready(h) && r.sha == ConfigSha(c) && r.revision == c.group.revision && r.groupId == c.group.groupId
    requires r.previousRevision == h.config.group.revision < r.revision
    ensures var a := ControllerActivate(h, r, env);
            && HostInv(a.host) && AfterActivation(h, a.host, c)
            && (a.receipt ==> Serves(a.host, c))
  {
    hide Activate, VerifiedRuntime, AskStatus;
    VerifyKeeps(h, Some(r.previousRevision), env.verify);
    var v := VerifiedRuntime(h, Some(r.previousRevision), env.verify).host;
    ActivateOutcomes(v, c, env.host);
    var a := if Arrives(env.delivery) then Activate(v, r.revision, r.sha, env.host) else Answer(v, Refused(NotRunning));
    AskKeeps(a.host, env.recheck);
  }

  /** An abort succeeds only on a host that is up and still serves what it served before. */
  lemma AbortMeansUntouched(h: Host, h': Host, r: Record, c: Config, env: AbortStep)
    requires Ready(h) && HostInv(h') && AfterActivation(h, h', c) && r.previousRevision == h.config.group.revision
    requires c.group.revision != h.config.group.revision
    ensures ControllerAbort(h', r, env).done ==> OnlyPending(h, ControllerAbort(h', r, env).host)
  {
    hide Abort, VerifiedRuntime, Serves;
    VerifyKeeps(h', Some(r.previousRevision), env.verify);
    AbortKeeps(VerifiedRuntime(h', Some(r.previousRevision), env.verify).host, r.revision, r.sha, env.late, env.unlinked);
    ServesItsRevision(h', c);
  }

  lemma ServesItsRevision(h: Host, c: Config)
    ensures Serves(h, c) ==> h.config.group.revision == c.group.revision
  {
  }

  /** A completed compensation serves the previous group one revision above the one taken back. */
  lemma RollbackServesPrevious(h: Host, r: Record, c: Config, env: RollbackStep)
    requires HostInv(h) && Serves(h, c) && r.sha == ConfigSha(c) && r.revision == c.group.revision
    ensures ControllerRollback(h, r, env).done ==> Serves(ControllerRollback(h, r, env).host, Compensating(r))
  {
    hide Activate, Prepare, VerifiedRuntime;
    VerifyKeeps(h, Some(r.revision), env.before);
    var v := VerifiedRuntime(h, Some(r.revision), env.before).host;
    PrepareKeeps(v, Compensating(r), env.prepare);
    var p := Prepare(v, Compensating(r), env.prepare);
    ActivateOutcomes(p.host, Compensating(r), env.activate);
    if p.reply.IsPrepared? || p.reply.IsActive? {
      var a := Activate(p.host, r.revision + 1, p.reply.sha, env.activate);
      VerifyKeeps(a.host, Some(r.revision + 1), env.after);
    }
  }

  /** The documented endings of a publish of `routes` for group `id`. */
  predicate Documented(w: World, w': World, id: string, routes: Routes) {
    var e := w.doc.revision;
    var c := w.host.config;
    // both at e+1, with the new group
    || (w'.doc == w.doc.(revision := e + 1, active := Some(id))
        && Serves(w'.host, c.(group := GroupConfig(e + 1, id, routes))) && !w'.locked)
    // both at e+2, with the old content
    || (w'.doc == w.doc.(revision := e + 2)
        && Serves(w'.host, c.(group := c.group.(revision := e + 2))) && !w'.locked)
    // nothing changed
    || (w'.doc == w.doc && OnlyPending(w.host, w'.host) && !w'.locked)
    // locked
    || w'.locked
  }

  lemma CompensatedEndings(w: World, loaded: D.Document, r: Record, c: Config, env: PublishEnv)
    requires HostInv(w.host) && Serves(w.host, c) && r.sha == ConfigSha(c)
    requires r.revision == c.group.revision == loaded.revision + 1 && !w.locked
    ensures var o := Compensated(w, loaded, r, env);
            || (o.ending == CompensatedEnding && w.doc.revision == loaded.revision && !o.world.locked
                && o.world.doc == loaded.(revision := loaded.revision + 2) && Serves(o.world.host, Compensating(r)))
            || (o.world.locked && o.world.doc == w.doc && o.ending == StateUncertain)
            || (o.ending == Unmarked && !env.marked && o.world.doc == w.doc)
  {
    hide ControllerRollback, Serves;
    RollbackServesPrevious(w.host, r, c, env.rollback);
  }

  /** The whole transaction, whatever state the gateway is in. */
  lemma TransactedEndings(w: World, id: string, routes: Routes, env: PublishEnv)
    requires HostInv(w.host) && !w.locked && (env.rival.Some? ==> env.rival.value.revision > w.doc.revision)
    ensures var o := Transacted(w, id, routes, env);
            && (o.ending == Unmarked || Documented(w, o.world, id, routes))
            && (o.ending == Unmarked ==> !env.marked)
            && (env.rival.Some? ==>
                  o.ending != Published
                  && (o.world.doc == w.doc || o.ending == CompensatedEnding || Some(o.world.doc) == env.rival))
  {
    hide ControllerPrepare, ControllerActivate, ControllerAbort, Compensated, Serves, Ready;
    var next := w.doc.revision + 1;
    var candidate := Candidate(next, id, routes);
    ControllerPrepareKeeps(w.host, candidate, env.prepare);
    var p := ControllerPrepare(w.host, candidate, env.prepare);
    if p.record.Some? {
      var r := p.record.value;
      var c := WithGroup(w.host.config, candidate);
      ControllerActivateOutcomes(p.host, r, c, env.activate);
      var a := ControllerActivate(p.host, r, env.activate);
      PendingCompose(w.host, p.host, a.host);
      AbortMeansUntouched(p.host, a.host, r, c, env.abort);
      PendingCompose(w.host, p.host, ControllerAbort(a.host, r, env.abort).host);
      if a.receipt {
        var w' := w.(host := a.host);
        CompensatedEndings(w', w.doc, r, c, env);
        if env.rival.Some? {
          CompensatedEndings(w'.(doc := env.rival.value), w.doc, r, c, env);
        }
      }
    }
  }

  lemma PendingCompose(a: Host, b: Host, c: Host)
    requires OnlyPending(a, b)
    ensures OnlyPending(b, c) ==> OnlyPending(a, c)
  {
  }

  /**
   Every publish ends in one of the four documented states as long as the uncertain marker can be
   written when it is needed.
   */
  lemma PublishEndings(w: World, id: string, expected: int, profiles: map<string, string>, env: PublishEnv)
    requires HostInv(w.host) && (env.rival.Some? ==> env.rival.value.revision > w.doc.revision)
    ensures var o := PublishGroup(w, id, expected, profiles, env);
            && (w.locked ==> o.world == w && o.ending == Locked)
            && (o.ending == Unmarked ==> !env.marked)
            && (o.ending != Unmarked && !w.locked ==>
                  || (o.world == w && o.ending == Rejected)
                  || (D.HasGroup(w.doc.groups, id)
                      && Materialized(D.Find(w.doc.groups, id).body, profiles).Some?
                      && Documented(w, o.world, id, Materialized(D.Find(w.doc.groups, id).body, profiles).value)))
  {
    hide Transacted, Documented, D.Find;
    if !w.locked && D.HasGroup(w.doc.groups, id) {
      var routes := Materialized(D.Find(w.doc.groups, id).body, profiles);
      if routes.Some? {
        TransactedEndings(w, id, routes.value, env);
      }
    }
  }

  // ------------------------------------------------------------- the exception

  /** A compensation never brings an earlier revision back, whatever becomes of it. */
  lemma RollbackNeverReturns(h: Host, r: Record, c: Config, env: RollbackStep)
    requires HostInv(h) && Serves(h, c) && r.sha == ConfigSha(c) && r.revision == c.group.revision
    ensures ControllerRollback(h, r, env).host.config.group.revision >= c.group.revision
  {
    hide Activate, Prepare, VerifiedRuntime;
    VerifyKeeps(h, Some(r.revision), env.before);
    var v := VerifiedRuntime(h, Some(r.revision), env.before).host;
    PrepareKeeps(v, Compensating(r), env.prepare);
    var p := Prepare(v, Compensating(r), env.prepare);
    ActivateOutcomes(p.host, Compensating(r), env.activate);
    if p.reply.IsPrepared? || p.reply.IsActive? {
      var a := Activate(p.host, r.revision + 1, p.reply.sha, env.activate);
      VerifyKeeps(a.host, Some(r.revision + 1), env.after);
    }
  }

  /** The activation took effect, or took the gateway down. */
  predicate Touched(w: World, id: string, routes: Routes, env: PublishEnv) {
    var p := ControllerPrepare(w.host, Candidate(w.doc.revision + 1, id, routes), env.prepare);
    p.record.Some?
    && var h := ControllerActivate(p.host, p.record.value, env.activate).host;
       h.config != w.host.config || !Up(h)
  }

  lemma UntouchedByAbort(h: Host, r: Record, env: AbortStep)
    requires HostInv(h)
    ensures OnlyPending(h, ControllerAbort(h, r, env).host)
  {
    hide Abort, VerifiedRuntime;
    VerifyKeeps(h, Some(r.previousRevision), env.verify);
    AbortKeeps(VerifiedRuntime(h, Some(r.previousRevision), env.verify).host, r.revision, r.sha, env.late, env.unlinked);
  }

  /** The compensation is not completed, or its document is refused. */
  predicate CompensationFails(w: World, loaded: D.Document, r: Record, env: PublishEnv) {
    || !ControllerRollback(w.host, r, env.rollback).done
    || D.Save(w.doc, loaded.(revision := r.revision + 1), loaded.revision, 2, env.compensationSaved).Err?
  }

  /** The transaction comes to a point where it has to write the marker. */
  predicate MarkerNeeded(w: World, id: string, routes: Routes, env: PublishEnv) {
    var next := w.doc.revision + 1;
    var p := ControllerPrepare(w.host, Candidate(next, id, routes), env.prepare);
    p.record.Some?
    && var r := p.record.value;
       var a := ControllerActivate(p.host, r, env.activate);
       if !a.receipt then !ControllerAbort(a.host, r, env.abort).done
       else if a.uncertain then CompensationFails(World(w.doc, w.locked, a.host), w.doc, r, env)
       else
         var doc := if env.rival.Some? then env.rival.value else w.doc;
         && D.Save(doc, w.doc.(revision := next, active := Some(id)), w.doc.revision, 1, env.saved).Err?
         && CompensationFails(World(doc, w.locked, a.host), w.doc, r, env)
  }

  lemma UnmarkedIffNeeded(w: World, id: string, routes: Routes, env: PublishEnv)
    ensures Transacted(w, id, routes, env).ending == Unmarked <==> !env.marked && MarkerNeeded(w, id, routes, env)
  {
    hide ControllerPrepare, ControllerActivate, ControllerAbort, ControllerRollback, D.Save;
  }

  /** What an unwritable marker leaves behind. */
  lemma UnmarkedLeaves(w: World, id: string, routes: Routes, env: PublishEnv)
    requires HostInv(w.host) && !w.locked && env.rival.None? && Transacted(w, id, routes, env).ending == Unmarked
    ensures var w' := Transacted(w, id, routes, env).world;
            w'.doc == w.doc && !w'.locked && (OnlyPending(w.host, w'.host) <==> !Touched(w, id, routes, env))
  {
    hide ControllerPrepare, ControllerActivate, ControllerAbort, ControllerRollback, Serves, D.Save;
    var candidate := Candidate(w.doc.revision + 1, id, routes);
    ControllerPrepareKeeps(w.host, candidate, env.prepare);
    var p := ControllerPrepare(w.host, candidate, env.prepare);
    var r, c := p.record.value, WithGroup(w.host.config, candidate);
    ControllerActivateOutcomes(p.host, r, c, env.activate);
    var a := ControllerActivate(p.host, r, env.activate);
    assert Up(w.host);
    hide Ready, HostInv;
    ServesItsRevision(a.host, c);
    if a.receipt {
      RollbackNeverReturns(a.host, r, c, env.rollback);
    } else {
      UntouchedByAbort(a.host, r, env.abort);
      PendingCompose(w.host, p.host, a.host);
      if OnlyPending(w.host, a.host) {
        PendingCompose(w.host, a.host, ControllerAbort(a.host, r, env.abort).host);
      }
    }
  }

  /**
   Without a rival, the four endings hold exactly if the marker can be written, is not needed, or the
   activation left the gateway alone.
   */
  lemma EndingsIffMarkedOrUntouched(w: World, id: string, routes: Routes, env: PublishEnv)
    requires HostInv(w.host) && !w.locked && env.rival.None?
    ensures Documented(w, Transacted(w, id, routes, env).world, id, routes)
            <==> env.marked || !MarkerNeeded(w, id, routes, env) || !Touched(w, id, routes, env)
  {
    hide Transacted, Touched, Serves, HostInv, OnlyPending, MarkerNeeded;
    TransactedEndings(w, id, routes, env);
    UnmarkedIffNeeded(w, id, routes, env);
    if Transacted(w, id, routes, env).ending == Unmarked {
      UnmarkedLeaves(w, id, routes, env);
    }
  }

  const CALM: VerifyEnv := VerifyEnv(true, Delivered, false, true)
  const OLD: Config := Config("i", "1", "l", "m", GroupConfig(4, "old", Routes("a", "b", "s")))

  /** The gateway activates; the save, the compensation and the marker all fail. */
  function Unlucky(): PublishEnv {
    var prepare := PrepareEnv(false, true, true, true, true, true);
    var activate := ActivateEnv(false, true, true, true, true, true, true, true);
    PublishEnv(PrepareStep(CALM, true, true, Delivered, prepare),
               ActivateStep(CALM, Delivered, activate, CALM),
               None, false,
               RollbackStep(CALM.(delivery := Undelivered), true, Delivered, prepare, Delivered, activate, CALM),
               false, AbortStep(CALM, Delivered, false, true), false)
  }

  /** A concrete publish that leaves gateway and document apart with no lock. */
  lemma UnmarkedHappens()
    ensures var group := D.Group("new", true, D.GroupBody("n", "p", "q", "t"), 1);
            var doc := D.Document(7, "i", Some("old"), [D.Group("old", true, D.GroupBody("o", "p", "q", "s"), 1), group]);
            var host := Host(Running, OLD, OLD.group, ConfigSha(OLD), ConfigSha(OLD), None, Disk(Canonical(OLD), None), 4);
            var profiles := map["p" := "a", "q" := "b"];
            var w := World(doc, false, host);
            var o := PublishGroup(w, "new", 7, profiles, Unlucky());
            && D.Valid(doc) && Ready(host)
            && o.ending == Unmarked && !o.world.locked
            && o.world.doc == doc && o.world.host.config.group.revision == 8
            && !Documented(w, o.world, "new", Routes("a", "b", "t"))
  {
    var group := D.Group("new", true, D.GroupBody("n", "p", "q", "t"), 1);
    var first := D.Group("old", true, D.GroupBody("o", "p", "q", "s"), 1);
    var doc := D.Document(7, "i", Some("old"), [first, group]);
    assert group in doc.groups && first in doc.groups;
    assert "old" != "new" by { assert "old"[0] == 'o' && "new"[0] == 'n'; }
    assert "p" != "q" by { assert "p"[0] == 'p' && "q"[0] == 'q'; }
    assert D.Find(doc.groups, "new") == group by { assert doc.groups[1..][0] == group; }
    var host := Host(Running, OLD, OLD.group, ConfigSha(OLD), ConfigSha(OLD), None, Disk(Canonical(OLD), None), 4);
    var profiles := map["p" := "a", "q" := "b"];
    assert Materialized(group.body, profiles) == Some(Routes("a", "b", "t"));
    UnmarkedTransaction(World(doc, false, host), Unlucky());
  }

  lemma UnmarkedTransaction(w: World, env: PublishEnv)
    requires w.host == Host(Running, OLD, OLD.group, ConfigSha(OLD), ConfigSha(OLD), None, Disk(Canonical(OLD), None), 4)
    requires w.doc.revision == 7 && !w.locked && env == Unlucky()
    ensures var o := Transacted(w, "new", Routes("a", "b", "t"), env);
            && o.ending == Unmarked && !o.world.locked && o.world.doc == w.doc
            && o.world.host.config.group.revision == 8
  {
    var candidate := Candidate(8, "new", Routes("a", "b", "t"));
    var c := WithGroup(OLD, candidate);
    var p := ControllerPrepare(w.host, candidate, env.prepare);
    assert p.record == Some(Record(8, "new", ConfigSha(c), 4, "old", OLD));
    var a := ControllerActivate(p.host, p.record.value, env.activate);
    assert a.receipt && !a.uncertain && a.host.config == c;
    assert D.Save(w.doc, w.doc.(revision := 8, active := Some("new")), 7, 1, false).Err?;
  }

  // ------------------------------------------------------------ publishes in a row

  /** One call of `publish_group` and what happens to it. */
  datatype Attempt = Attempt(id: string, expected: int, profiles: map<string, string>, env: PublishEnv)

  function Once(w: World, a: Attempt): Outcome {
    PublishGroup(w, a.id, a.expected, a.profiles, a.env)
  }

  function InTurn(w: World, attempts: seq<Attempt>): World
    decreases |attempts|
  {
    if attempts == [] then w else InTurn(Once(w, attempts[0]).world, attempts[1..])
  }

  predicate MarkersWritable(attempts: seq<Attempt>) {
    forall a <- attempts :: a.env.marked && a.env.rival.None?
  }

  /** The gateway serves the group that the document names, under a revision the document has reached. */
  predicate InStep(w: World) {
    w.doc.active.Some? && w.host.config.group.groupId == w.doc.active.value
    && w.host.config.group.revision <= w.doc.revision
  }

  /** Once locked, no later publish changes anything, however many are tried. */
  lemma {:induction false} LockHolds(w: World, attempts: seq<Attempt>)
    requires w.locked
    ensures InTurn(w, attempts) == w
    ensures forall a <- attempts :: Once(w, a).ending == Locked
  {
    hide Transacted, D.Find;
    if attempts != [] {
      LockHolds(w, attempts[1..]);
    }
  }

  /** One publish keeps document and gateway together, or locks. */
  lemma PublishKeepsStep(w: World, a: Attempt)
    requires HostInv(w.host) && InStep(w) && a.env.marked && a.env.rival.None?
    ensures var w' := Once(w, a).world;
            w'.locked || (HostInv(w'.host) && InStep(w'))
  {
    hide Transacted, D.Find, HostInv;
    PublishEndings(w, a.id, a.expected, a.profiles, a.env);
    PublishKeepsInv(w, a);
  }

  /**
   However many publishes follow one another, whatever becomes of their requests: the gateway serves
   the group the document names, or the lock is set and stays.
   */
  lemma {:induction false} PublishesStayInStep(w: World, attempts: seq<Attempt>)
    requires HostInv(w.host) && InStep(w) && MarkersWritable(attempts)
    ensures var w' := InTurn(w, attempts);
            w'.locked || (HostInv(w'.host) && InStep(w'))
    decreases |attempts|
  {
    hide HostInv, InStep, Once;
    if attempts != [] {
      PublishKeepsStep(w, attempts[0]);
      var next := Once(w, attempts[0]).world;
      if next.locked {
        LockHolds(next, attempts[1..]);
      } else {
        PublishesStayInStep(next, attempts[1..]);
      }
    }
  }

  /** A publish keeps the invariant of the gateway. */
  lemma PublishKeepsInv(w: World, a: Attempt)
    requires HostInv(w.host)
    ensures HostInv(Once(w, a).world.host)
  {
    hide Transacted, D.Find, HostInv;
    if !w.locked && D.HasGroup(w.doc.groups, a.id) {
      var routes := Materialized(D.Find(w.doc.groups, a.id).body, a.profiles);
      if routes.Some? {
        TransactedKeepsInv(w, a.id, routes.value, a.env);
      }
    }
  }

  lemma TransactedKeepsInv(w: World, id: string, routes: Routes, env: PublishEnv)
    requires HostInv(w.host)
    ensures HostInv(Transacted(w, id, routes, env).world.host)
  {
    hide ControllerPrepare, ControllerActivate, ControllerAbort, ControllerRollback, HostInv, D.Save, Ready;
    var candidate := Candidate(w.doc.revision + 1, id, routes);
    ControllerPrepareKeeps(w.host, candidate, env.prepare);
    var p := ControllerPrepare(w.host, candidate, env.prepare);
    if p.record.Some? {
      var r := p.record.value;
      ControllerActivateOutcomes(p.host, r, WithGroup(w.host.config, candidate), env.activate);
      var a := ControllerActivate(p.host, r, env.activate);
      AbortKeepsInv(a.host, r, env.abort);
      RollbackKeepsInv(a.host, r, env.rollback);
    }
  }

  lemma AbortKeepsInv(h: Host, r: Record, env: AbortStep)
    requires HostInv(h)
    ensures HostInv(ControllerAbort(h, r, env).host)
  {
    hide Abort, VerifiedRuntime, HostInv;
    VerifyKeeps(h, Some(r.previousRevision), env.verify);
    AbortKeeps(VerifiedRuntime(h, Some(r.previousRevision), env.verify).host, r.revision, r.sha, env.late, env.unlinked);
  }

  lemma RollbackKeepsInv(h: Host, r: Record, env: RollbackStep)
    requires HostInv(h)
    ensures HostInv(ControllerRollback(h, r, env).host)
  {
    hide Activate, Prepare, VerifiedRuntime, HostInv;
    VerifyKeeps(h, Some(r.revision), env.before);
    var v := VerifiedRuntime(h, Some(r.revision), env.before).host;
    var p := Prepare(v, Compensating(r), env.prepare);
    StepKeepsInv(v, OpPrepare(Compensating(r), env.prepare));
    if p.reply.IsPrepared? || p.reply.IsActive? {
      var a := Activate(p.host, r.revision + 1, p.reply.sha, env.activate);
      StepKeepsInv(p.host, OpActivate(r.revision + 1, p.reply.sha, env.activate));
      VerifyKeeps(a.host, Some(r.revision + 1), env.after);
    }
  }
}

/** The controller and the service as the source runs them. */
module PublishService {
  import opened Common
  import D = FailoverDocument
  import opened H = GatewayHost
  import opened G = GatewayProcess
  import opened P = Publish
  import opened PublishOutcomes

  class ProductionGatewayController {
    const host: GatewayProcessHost
    var prepared: map<nat, Record>
    var handles: nat

    constructor (host: GatewayProcessHost)
      ensures this.host == host && prepared == map[]
    {
      this.host := host;
      prepared, handles := map[], 0;
    }

    method Ask(env: VerifyEnv) returns (status: Option<Status>)
      modifies host
      ensures AskStatus(old(host.State()), env) == Verification(host.State(), status)
    {
      status := None;
      if env.delivery != Undelivered {
        var _ := host.Expire(env.late, env.unlinked);
        if env.delivery == Delivered {
          status := Some(StatusOf(host.State()));
        }
      }
    }

    method Verify(expected: Option<int>, env: VerifyEnv) returns (status: Option<Status>)
      modifies host
      ensures VerifiedRuntime(old(host.State()), expected, env) == Verification(host.State(), status)
    {
      var described := host.descriptorRevision;
      if !env.identity || (expected.Some? && described != expected.value) {
        return None;
      }
      status := Ask(env);
      if status.Some? && status.value.revision != described {
        status := None;
      }
    }

    method Prepare(candidate: Candidate, env: PrepareStep) returns (handle: Option<nat>)
      modifies this`prepared, this`handles, host
      ensures handle.Some? ==> handle.value in prepared
      ensures ControllerPrepare(old(host.State()), candidate, env)
           == Prepared'(host.State(), if handle.Some? then Some(prepared[handle.value]) else None)
    {
      var status := Verify(None, env.verify);
      var previousRevision := host.descriptorRevision;
      if status.None? || candidate.revision <= previousRevision || !env.fileRead || !host.disk.active.Text?
         || !env.credentials || env.delivery == Undelivered {
        return None;
      }
      var previous := host.disk.active.config;
      var reply := host.PrepareConfig(WithGroup(previous, candidate), env.host);
      if env.delivery != Delivered || !(reply.IsPrepared? || reply.IsActive?) || reply.revision != candidate.revision {
        return None;
      }
      handle := Some(handles);
      prepared := prepared[handles := Record(candidate.revision, candidate.groupId, reply.sha, previousRevision,
                                             status.value.groupId, previous)];
      handles := handles + 1;
    }

    method Activate(handle: nat, env: ActivateStep) returns (receipt: bool, uncertain: bool)
      requires handle in prepared && HostInv(host.State())
      modifies this`prepared, host
      ensures ControllerActivate(old(host.State()), old(prepared)[handle], env) == Activation(host.State(), receipt, uncertain)
      ensures prepared == if receipt then old(prepared) - {handle} else old(prepared)
    {
      var r := prepared[handle];
      VerifyKeeps(host.State(), Some(r.previousRevision), env.verify);
      var status := Verify(Some(r.previousRevision), env.verify);
      receipt, uncertain := false, false;
      if status.None? {
        return;
      }
      var reply := Refused(NotRunning);
      if env.delivery != Undelivered {
        reply := host.ActivateConfig(r.revision, r.sha, env.host);
      }
      if Acknowledged(reply, env.delivery, r.revision, r.sha) {
        receipt := true;
      } else {
        var recheck := None;
        if env.recheck.identity {
          recheck := Ask(env.recheck);
        }
        receipt := recheck.Some? && recheck.value.revision == r.revision && recheck.value.groupId == r.groupId;
        uncertain := receipt;
      }
      if receipt {
        prepared := prepared - {handle};
      }
    }

    method Rollback(r: Record, env: RollbackStep) returns (done: bool)
      requires HostInv(host.State())
      modifies host
      ensures ControllerRollback(old(host.State()), r, env) == Compensation(host.State(), done)
    {
      VerifyKeeps(host.State(), Some(r.revision), env.before);
      var status := Verify(Some(r.revision), env.before);
      if status.None? || status.value.groupId != r.groupId || status.value.sha != r.sha || !env.fileRead
         || !host.disk.active.Text? || ConfigSha(host.disk.active.config) != r.sha || env.prepareDelivery == Undelivered {
        return false;
      }
      PrepareKeeps(host.State(), Compensating(r), env.prepare);
      var p := host.PrepareConfig(Compensating(r), env.prepare);
      if env.prepareDelivery != Delivered || !(p.IsPrepared? || p.IsActive?) || env.activateDelivery == Undelivered {
        return false;
      }
      var a := host.ActivateConfig(r.revision + 1, p.sha, env.activate);
      if !Acknowledged(a, env.activateDelivery, r.revision + 1, p.sha) {
        return false;
      }
      var checked := Verify(Some(r.revision + 1), env.after);
      done := checked.Some? && checked.value.groupId == r.previousGroupId && checked.value.sha == p.sha;
    }

    method Abort(handle: nat, env: AbortStep) returns (done: bool)
      requires handle in prepared
      modifies this`prepared, host
      ensures ControllerAbort(old(host.State()), old(prepared)[handle], env) == Compensation(host.State(), done)
    {
      var r := prepared[handle];
      var status := Verify(Some(r.previousRevision), env.verify);
      if status.None? || env.delivery == Undelivered {
        return false;
      }
      var reply := host.AbortConfig(r.revision, r.sha, env.late, env.unlinked);
      done := env.delivery == Delivered && reply.Aborted?;
      if done {
        prepared := prepared - {handle};
      }
    }
  }

  class FailoverManagementService {
    var doc: D.Document
    var locked: bool
    const controller: ProductionGatewayController

    function State(): World
      reads this, controller.host
    {
      World(doc, locked, controller.host.State())
    }

    constructor (doc: D.Document, locked: bool, controller: ProductionGatewayController)
      ensures this.doc == doc && this.locked == locked && this.controller == controller
    {
      this.doc, this.locked, this.controller := doc, locked, controller;
    }

    method MarkUncertain(marked: bool) returns (ending: Ending)
      modifies this`locked
      ensures P.Marked(old(State()), marked) == Outcome(State(), ending)
    {
      if marked {
        locked := true;
        return StateUncertain;
      }
      ending := Unmarked;
    }

    /** `save` and `save_compensation`: compare, validate, keep the instance, count up by `gap`, write. */
    method SaveDocument(candidate: D.Document, expected: int, gap: int, written: bool) returns (ok: bool)
      modifies this`doc
      ensures ok == D.Save(old(doc), candidate, expected, gap, written).Ok?
      ensures doc == if ok then candidate else old(doc)
      ensures ok ==> D.Valid(doc) && doc.instanceId == old(doc).instanceId && doc.revision == old(doc).revision + gap
    {
      if doc.revision != expected {
        return false;
      }
      if !D.Valid(candidate) {
        return false;
      }
      if candidate.instanceId != doc.instanceId || candidate.revision != expected + gap {
        return false;
      }
      if written {
        doc := candidate;
      }
      return written;
    }

    /** The compensation branch of the exception handler. */
    method Compensate(loaded: D.Document, r: Record, env: PublishEnv) returns (ending: Ending)
      requires HostInv(controller.host.State())
      modifies this`doc, this`locked, controller.host
      ensures P.Compensated(old(State()), loaded, r, env) == Outcome(State(), ending)
    {
      var done := controller.Rollback(r, env.rollback);
      if done {
        var saved := SaveDocument(loaded.(revision := r.revision + 1), loaded.revision, 2, env.compensationSaved);
        if saved {
          return CompensatedEnding;
        }
      }
      ending := MarkUncertain(env.marked);
    }

    method Transact(id: string, routes: Routes, env: PublishEnv) returns (ending: Ending)
      requires HostInv(controller.host.State())
      modifies this`doc, this`locked, controller, controller.host
      ensures P.Transacted(old(State()), id, routes, env) == Outcome(State(), ending)
    {
      hide ControllerPrepare, ControllerActivate, ControllerAbort, Compensated, D.Save;
      var loaded := doc;
      var next := loaded.revision + 1;
      ghost var h := controller.host.State();
      ControllerPrepareKeeps(h, Candidate(next, id, routes), env.prepare);
      var handle := controller.Prepare(Candidate(next, id, routes), env.prepare);
      if handle.None? {
        return Rejected;
      }
      var r := controller.prepared[handle.value];
      ControllerActivateOutcomes(controller.host.State(), r, WithGroup(h.config, Candidate(next, id, routes)), env.activate);
      var receipt, uncertain := controller.Activate(handle.value, env.activate);
      if !receipt {
        var aborted := controller.Abort(handle.value, env.abort);
        if aborted {
          return Rejected;
        }
        ending := MarkUncertain(env.marked);
        return;
      }
      if !uncertain {
        if env.rival.Some? {
          doc := env.rival.value;
        }
        var saved := SaveDocument(loaded.(revision := next, active := Some(id)), loaded.revision, 1, env.saved);
        if saved {
          return Published;
        }
      }
      ending := Compensate(loaded, r, env);
    }

    /** `publish_group`: whatever happens, it ends as `PublishEndings` says. */
    method PublishGroup(id: string, expected: int, profiles: map<string, string>, env: PublishEnv) returns (ending: Ending)
      requires HostInv(controller.host.State())
      requires env.rival.Some? ==> env.rival.value.revision > doc.revision
      modifies this`doc, this`locked, controller, controller.host
      ensures P.PublishGroup(old(State()), id, expected, profiles, env) == Outcome(State(), ending)
      ensures ending == Unmarked ==> !env.marked
      ensures old(locked) ==> State() == old(State()) && ending == Locked
      ensures forall g <- old(doc).groups :: D.Valid(old(doc)) && g.id == id && ending == Published ==>
                && doc == old(doc).(revision := old(doc).revision + 1, active := Some(id))
                && g.body.primary in profiles && g.body.backup in profiles
                && controller.host.config.group.routes
                   == Routes(profiles[g.body.primary], profiles[g.body.backup], g.body.settings)
      ensures forall g <- old(doc).groups :: D.Valid(old(doc)) && g.id == id && !old(locked) ==>
                g.body.primary !in profiles || g.body.backup !in profiles ==> ending == Rejected && doc == old(doc)
    {
      hide Transacted, D.Find, Documented, D.Valid;
      PublishEndings(State(), id, expected, profiles, env);
      forall g | g in doc.groups && D.Valid(doc) && g.id == id && !locked
        ensures var o := P.PublishGroup(State(), id, expected, profiles, env);
                && (o.ending == Published ==>
                      && o.world.doc == doc.(revision := doc.revision + 1, active := Some(id))
                      && RoutesOf(o.world.host.config.group.routes, g, profiles))
                && (g.body.primary !in profiles || g.body.backup !in profiles ==> o == Outcome(State(), Rejected))
      {
        PublishServes(State(), g, expected, profiles, env);
      }
      if locked {
        return Locked;
      }
      if doc.revision != expected || !D.HasGroup(doc.groups, id) {
        return Rejected;
      }
      var g := D.Find(doc.groups, id);
      var routes := Materialized(g.body, profiles);
      if !g.enabled || routes.None? {
        return Rejected;
      }
      ending := Transact(id, routes.value, env);
    }
  }
}
