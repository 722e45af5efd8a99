/**
 The configuration transaction of the gateway process (gateway/app.py): prepare,
 activate, abort, reload and restart over an active file, a pending file, the
 configuration in memory and the one the provider routes with.
 */
module GatewayHost {
  import opened Common

  /** What a group routes to: two materialized profiles and the rest of its settings. */
  datatype Routes = Routes(primary: string, backup: string, settings: string)

  datatype GroupConfig = GroupConfig(revision: int, groupId: string, routes: Routes)

  datatype Config = Config(instanceId: string, version: string, listen: string, limits: string, group: GroupConfig)

  /** The bytes of a configuration file: a document in some textual layout, or bytes that do not parse. */
  datatype Bytes = Text(config: Config, layout: nat) | Junk(tag: nat)

  /** SHA-256 of a file, taken to be injective. */
  datatype Sha = Sha(bytes: Bytes)

  function Canonical(c: Config): Bytes { Text(c, 0) }

  function ConfigSha(c: Config): Sha { Sha(Canonical(c)) }

  /** The prepared candidate in memory; the envelope on disk carries the same fields. */
  datatype Prepared = Prepared(
    config: Config,
    sha: Sha,
    baseRevision: int,
    baseFileSha: Sha,
    pendingSha: PendingFile)

  datatype Envelope = Envelope(
    baseRevision: int,
    baseFileSha: Sha,
    configRevision: int,
    sha: Sha,
    config: Config)

  /** The pending file: an envelope, or bytes that are not one. */
  datatype PendingFile = Sealed(envelope: Envelope) | Unreadable(tag: nat)

  datatype Phase = Running | Draining | HostFailed

  datatype Disk = Disk(active: Bytes, pending: Option<PendingFile>)

  datatype Host = Host(
    phase: Phase,
    config: Config,
    provider: GroupConfig,
    configSha: Sha,
    fileSha: Sha,
    prepared: Option<Prepared>,
    disk: Disk,
    descriptorRevision: int)

  datatype HostError =
    | NotRunning
    | ReadFailed
    | ActiveChanged
    | ConfigInvalid
    | RevisionConflict
    | CandidateRefused
    | PrepareInProgress
    | WriteFailed
    | NotPrepared
    | PrepareExpired
    | RevisionMismatch
    | HashMismatch
    | PreparedChanged
    | RollbackFailed
    | ActivationRejected
    | ReloadRefused

  datatype Reply =
    | IsActive(revision: int, sha: Sha)
    | IsPrepared(revision: int, sha: Sha)
    | Aborted(revision: int)
    | Refused(error: HostError)

  datatype Answer = Answer(host: Host, reply: Reply)

  predicate Up(h: Host) {
    h.phase == Running || h.phase == Draining
  }

  // ------------------------------------------------------------ prepared config

  /** `_discard_prepared_config`; removing the pending file may fail silently. */
  function Discarded(h: Host, unlinked: bool): Host {
    h.(prepared := None, disk := if unlinked then h.disk.(pending := None) else h.disk)
  }

  predicate Expires(h: Host, late: bool) {
    h.prepared.Some? && (late || h.prepared.value.baseRevision != h.config.group.revision)
  }

  /** `_expire_prepared_config`; `late` says that one of the two clocks has passed the deadline. */
  function Expired(h: Host, late: bool, unlinked: bool): Host {
    if Expires(h, late) then Discarded(h, unlinked) else h
  }

  /** `_validate_prepared_candidate`, without the credential lookup. */
  predicate Follows(candidate: Config, current: Config) {
    && candidate.instanceId == current.instanceId
    && candidate.version == current.version
    && candidate.listen == current.listen
    && candidate.limits == current.limits
    && candidate.group.revision > current.group.revision
  }

  /** What the outside world does to one `prepare_config`. */
  datatype PrepareEnv = PrepareEnv(late: bool, unlinked: bool, readable: bool, parses: bool, credentials: bool, written: bool)

  function Prepare(h: Host, candidate: Config, env: PrepareEnv): Answer {
    if !Up(h) then Answer(h, Refused(NotRunning))
    else
      var h := Expired(h, env.late, env.unlinked);
      var revision := candidate.group.revision;
      var sha := ConfigSha(candidate);
      if !env.readable then Answer(h, Refused(ReadFailed))
      else if Sha(h.disk.active) != h.fileSha then Answer(h, Refused(ActiveChanged))
      else if !env.parses then Answer(h, Refused(ConfigInvalid))
      else if revision == h.config.group.revision then
        Answer(h, if sha != h.configSha then Refused(RevisionConflict) else IsActive(revision, sha))
      else if !Follows(candidate, h.config) || !env.credentials then Answer(h, Refused(CandidateRefused))
      else if h.prepared.Some? then
        var existing := h.prepared.value;
        Answer(h, if existing.config.group.revision == revision && existing.sha == sha then IsPrepared(revision, sha)
                  else if existing.config.group.revision == revision then Refused(RevisionConflict)
                  else Refused(PrepareInProgress))
      else if !env.written then Answer(h, Refused(WriteFailed))
      else
        var pending := Sealed(Envelope(h.config.group.revision, h.fileSha, revision, sha, candidate));
        Answer(h.(prepared := Some(Prepared(candidate, sha, h.config.group.revision, h.fileSha, pending)),
                  disk := h.disk.(pending := Some(pending))),
               IsPrepared(revision, sha))
  }

  /** What the outside world does to one `activate_config`. */
  datatype ActivateEnv = ActivateEnv(
    late: bool,
    unlinked: bool,
    readable: bool,
    staged: bool,
    replaced: bool,
    accepted: bool,
    rolledBack: bool,
    described: bool)

  /** The checks of `activate_config` before anything is written. */
  function ActivationRefusal(h: Host, revision: int, sha: Sha, env: ActivateEnv): Option<HostError>
    requires h.prepared.Some?
  {
    var p := h.prepared.value;
    if revision != p.config.group.revision then Some(RevisionMismatch)
    else if sha != p.sha then Some(HashMismatch)
    else if p.baseRevision != h.config.group.revision then Some(ActiveChanged)
    else if !env.readable || h.disk.pending.None? then Some(ReadFailed)
    else if Sha(h.disk.active) != p.baseFileSha || Sha(h.disk.active) != h.fileSha then Some(ActiveChanged)
    else if h.disk.pending.value != p.pendingSha then Some(PreparedChanged)
    else None
  }

  predicate RefusalDiscards(h: Host, revision: int, sha: Sha, env: ActivateEnv)
    requires h.prepared.Some?
  {
    var p := h.prepared.value;
    && revision == p.config.group.revision && sha == p.sha
    && (p.baseRevision != h.config.group.revision || (env.readable && h.disk.pending.Some?))
  }

  /** The commit of a validated candidate, and its rollback when the provider refuses it. */
  function Committed(h: Host, env: ActivateEnv): Answer
    requires h.prepared.Some?
  {
    var p := h.prepared.value;
    if !env.staged || !env.replaced then Answer(h, Refused(WriteFailed))
    else if !env.accepted then
      if env.rolledBack then Answer(h, Refused(ActivationRejected))
      else Answer(h.(phase := HostFailed, disk := h.disk.(active := Canonical(p.config))), Refused(RollbackFailed))
    else
      Answer(h.(config := p.config,
                provider := p.config.group,
                configSha := p.sha,
                fileSha := p.sha,
                prepared := None,
                disk := Disk(Canonical(p.config), if env.unlinked then None else h.disk.pending),
                descriptorRevision := if env.described then p.config.group.revision else h.descriptorRevision),
             IsActive(p.config.group.revision, p.sha))
  }

  function Activate(h: Host, revision: int, sha: Sha, env: ActivateEnv): Answer {
    if !Up(h) then Answer(h, Refused(NotRunning))
    else if revision == h.config.group.revision then
      Answer(h, if sha != h.configSha then Refused(RevisionConflict) else IsActive(revision, sha))
    else
      var late := Expires(h, env.late);
      var h := Expired(h, env.late, env.unlinked);
      if h.prepared.None? then Answer(h, Refused(if late then PrepareExpired else NotPrepared))
      else
        match ActivationRefusal(h, revision, sha, env)
        case Some(e) =>
          Answer(if RefusalDiscards(h, revision, sha, env) then Discarded(h, env.unlinked) else h, Refused(e))
        case None => Committed(h, env)
  }

  function Abort(h: Host, revision: int, sha: Sha, late: bool, unlinked: bool): Answer {
    if !Up(h) then Answer(h, Refused(NotRunning))
    else
      var expired := Expires(h, late);
      var h := Expired(h, late, unlinked);
      if h.prepared.None? then
        Answer(h, if expired then Refused(PrepareExpired) else Aborted(h.config.group.revision))
      else if revision != h.prepared.value.config.group.revision then Answer(h, Refused(RevisionMismatch))
      else if sha != h.prepared.value.sha then Answer(h, Refused(HashMismatch))
      else Answer(Discarded(h, unlinked), Aborted(h.config.group.revision))
  }

  /** `reload` takes over a new layout of the same document, and nothing else. */
  function Reload(h: Host, late: bool, unlinked: bool): Answer {
    if !Up(h) then Answer(h, Refused(NotRunning))
    else
      var h := Expired(h, late, unlinked);
      if h.prepared.Some? then Answer(h, Refused(PrepareInProgress))
      else if !h.disk.active.Text? then Answer(h, Refused(ConfigInvalid))
      else if ConfigSha(h.disk.active.config) != h.configSha then Answer(h, Refused(ReloadRefused))
      else Answer(h.(fileSha := Sha(h.disk.active)), IsActive(h.config.group.revision, h.configSha))
  }

  // -------------------------------------------------------------------- restart

  /** What the outside world does to `_recover_prepared_config`. */
  datatype RecoverEnv = RecoverEnv(inTime: bool, parses: bool, credentials: bool)

  function Recovered(config: Config, fileSha: Sha, pending: Option<PendingFile>, env: RecoverEnv): Option<Prepared> {
    if pending.None? || !pending.value.Sealed? then None
    else
      var e := pending.value.envelope;
      if && env.inTime && env.parses && env.credentials
         && e.baseRevision == config.group.revision
         && e.baseFileSha == fileSha
         && ConfigSha(e.config) == e.sha
         && e.config.group.revision == e.configRevision
         && Follows(e.config, config)
      then Some(Prepared(e.config, e.sha, e.baseRevision, e.baseFileSha, pending.value))
      else None
  }

  /** `start` on what a previous process left on disk. */
  function Restart(disk: Disk, env: RecoverEnv): Option<Host> {
    if !disk.active.Text? then None
    else
      var config := disk.active.config;
      var fileSha := Sha(disk.active);
      Some(Host(Running, config, config.group, ConfigSha(config), fileSha,
                Recovered(config, fileSha, disk.pending, env), disk, config.group.revision))
  }

  // ------------------------------------------------------------------ invariant

  /**
   Memory, provider and recorded hashes denote one configuration; so does the active file
   as long as nobody else has rewritten it since the host last read or wrote it.
   */
  predicate Coherent(h: Host) {
    && h.provider == h.config.group
    && h.configSha == ConfigSha(h.config)
    && (Sha(h.disk.active) == h.fileSha ==> h.disk.active.Text? && h.disk.active.config == h.config)
  }

  predicate PreparedOk(h: Host) {
    h.prepared.Some? ==>
      var p := h.prepared.value;
      && p.sha == ConfigSha(p.config)
      && (p.baseRevision == h.config.group.revision ==> Follows(p.config, h.config))
      && p.pendingSha == Sealed(Envelope(p.baseRevision, p.baseFileSha, p.config.group.revision, p.sha, p.config))
  }

  predicate HostInv(h: Host) {
    PreparedOk(h) && (Up(h) ==> Coherent(h))
  }

  datatype Op =
    | OpPrepare(candidate: Config, prepareEnv: PrepareEnv)
    | OpActivate(revision: int, sha: Sha, activateEnv: ActivateEnv)
    | OpAbort(revision: int, sha: Sha, late: bool, unlinked: bool)
    | OpReload(late: bool, unlinked: bool)

  function Next(h: Host, op: Op): Answer {
    match op
    case OpPrepare(candidate, env) => Prepare(h, candidate, env)
    case OpActivate(revision, sha, env) => Activate(h, revision, sha, env)
    case OpAbort(revision, sha, late, unlinked) => Abort(h, revision, sha, late, unlinked)
    case OpReload(late, unlinked) => Reload(h, late, unlinked)
  }

  /** Every control operation keeps the invariant, whatever the file system and the provider do. */
  lemma StepKeepsInv(h: Host, op: Op)
    requires HostInv(h)
    ensures HostInv(Next(h, op).host)
  {
  }

  /** What only an accepted activation may change. */
  predicate SameActive(a: Host, b: Host) {
    a.config == b.config && a.provider == b.provider && a.configSha == b.configSha && a.disk.active == b.disk.active
  }

  /**
   A control operation leaves the active configuration alone, or activates exactly the prepared
   candidate, under a higher revision, in memory, provider, file and hashes at once, or fails its
   rollback and takes the host down.
   */
  lemma StepActivates(h: Host, op: Op)
    requires HostInv(h) && Up(h)
    ensures var h' := Next(h, op).host;
            || SameActive(h, h')
            || (&& op.OpActivate? && h.prepared.Some?
                && h'.config == h.prepared.value.config && Follows(h'.config, h.config)
                && h'.disk.active == Canonical(h'.config) && h'.fileSha == Sha(h'.disk.active)
                && Coherent(h') && h'.prepared == None
                && Next(h, op).reply == IsActive(op.revision, op.sha) && op.revision == h'.config.group.revision)
            || (h'.phase == HostFailed && h'.config == h.config && Next(h, op).reply == Refused(RollbackFailed))
  {
  }

  /** A restarted host is coherent, and adopts a prepared candidate only if its base is the active file. */
  lemma RestartKeepsInv(disk: Disk, env: RecoverEnv)
    requires Restart(disk, env).Some?
    ensures var h := Restart(disk, env).value;
            && HostInv(h)
            && (h.prepared.Some? ==>
                  h.prepared.value.baseFileSha == Sha(disk.active)
                  && h.prepared.value.config.group.revision > h.config.group.revision)
  {
  }
}
