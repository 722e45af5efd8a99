/** When each control operation of the gateway is accepted, told on the fields it looks at. */
module GatewayHostOutcomes {
  import opened Common
  import opened GatewayHost

  /** The candidate differs from what runs in its group alone, and comes later. */
  predicate Succeeds(candidate: Config, current: Config) {
    candidate == current.(group := candidate.group) && candidate.group.revision > current.group.revision
  }

  /** The candidate that counts: one that is late, or made for another revision, is as good as none. */
  function Held(h: Host, late: bool): Option<Prepared> {
    if h.prepared.Some? && !late && h.prepared.value.baseRevision == h.config.group.revision then h.prepared else None
  }

  predicate Runs(h: Host) {
    h.phase != HostFailed
  }

  /** The active file is the one the host knows. */
  predicate FileKnown(h: Host) {
    Sha(h.disk.active) == h.fileSha
  }

  predicate Prepares(h: Host, candidate: Config, env: PrepareEnv) {
    var held := Held(h, env.late);
    && Runs(h) && env.readable && FileKnown(h) && env.parses && Succeeds(candidate, h.config) && env.credentials
    && if held.Some? then held.value.config == candidate else env.written
  }

  lemma ShaTells(c: Config, d: Config)
    ensures ConfigSha(c) == ConfigSha(d) <==> c == d
  {
  }

  lemma FollowsIsSucceeds(candidate: Config, current: Config)
    ensures Follows(candidate, current) <==> Succeeds(candidate, current)
  {
  }

  lemma HeldIs(h: Host, late: bool, unlinked: bool)
    requires HostInv(h)
    ensures var e := Expired(h, late, unlinked);
            && e.prepared == Held(h, late) && e == h.(prepared := e.prepared, disk := h.disk.(pending := e.disk.pending))
            && (Held(h, late).Some? ==> e == h)
            && (Expires(h, late) <==> h.prepared.Some? && Held(h, late).None?)
            && (Held(h, late).Some? ==> Held(h, late).value.sha == ConfigSha(Held(h, late).value.config))
  {
  }

  /** `prepare_config`: accepted exactly when nothing stands against it, and then held as it was given. */
  lemma PrepareOutcome(h: Host, candidate: Config, env: PrepareEnv)
    requires HostInv(h)
    ensures var a := Prepare(h, candidate, env);
            && (a.reply.IsPrepared? <==> Prepares(h, candidate, env))
            && (a.reply.IsPrepared? ==>
                  && a.reply == IsPrepared(candidate.group.revision, ConfigSha(candidate))
                  && a.host.prepared.Some? && a.host.prepared.value.config == candidate
                  && a.host.prepared.value.baseRevision == h.config.group.revision
                  && (Held(h, env.late).None? ==>
                        && a.host.prepared.value.baseFileSha == h.fileSha
                        && a.host.disk.pending == Some(a.host.prepared.value.pendingSha)))
            && (a.reply.IsActive? <==>
                  Runs(h) && env.readable && FileKnown(h) && env.parses && candidate == h.config)
            && (a.reply == Refused(NotRunning) <==> !Runs(h))
  {
    HeldIs(h, env.late, env.unlinked);
    FollowsIsSucceeds(candidate, h.config);
    ShaTells(candidate, h.config);
    hide Follows, Expired, Expires;
    if Held(h, env.late).Some? {
      ShaTells(candidate, Held(h, env.late).value.config);
    }
  }

  predicate Activates(h: Host, revision: int, sha: Sha, env: ActivateEnv) {
    var held := Held(h, env.late);
    && Runs(h) && held.Some? && revision == held.value.config.group.revision && sha == ConfigSha(held.value.config)
    && env.readable && h.disk.pending == Some(held.value.pendingSha)
    && FileKnown(h) && Sha(h.disk.active) == held.value.baseFileSha
    && env.staged && env.replaced && env.accepted
  }

  /** `activate_config`: the prepared candidate goes live exactly when it is named rightly and nothing fails. */
  lemma ActivateOutcome(h: Host, revision: int, sha: Sha, env: ActivateEnv)
    requires HostInv(h)
    ensures var a := Activate(h, revision, sha, env);
            && (revision != h.config.group.revision ==> (a.reply.IsActive? <==> Activates(h, revision, sha, env)))
            && (revision == h.config.group.revision ==>
                  a.host == h && (a.reply.IsActive? <==> Runs(h) && sha == ConfigSha(h.config)))
            && (a.reply.IsActive? ==> a.reply == IsActive(revision, sha) && a.host.config.group.revision == revision)
            && (revision != h.config.group.revision && a.reply.IsActive? ==>
                  && a.host.config == h.prepared.value.config && a.host.disk.active == Canonical(a.host.config)
                  && a.host.prepared == None
                  && (env.described ==> a.host.descriptorRevision == revision))
            && (a.reply == Refused(ActivationRejected) ==> a.host == h)
  {
    HeldIs(h, env.late, env.unlinked);
    hide Expired, Expires, Follows;
  }

  /** `abort_config`: acknowledged exactly if no candidate counts, or the one that does is named; then none is left. */
  lemma AbortOutcome(h: Host, revision: int, sha: Sha, late: bool, unlinked: bool)
    requires HostInv(h)
    ensures var a, held := Abort(h, revision, sha, late, unlinked), Held(h, late);
            && (a.reply.Aborted? <==>
                  Runs(h) && if held.Some? then revision == held.value.config.group.revision && sha == ConfigSha(held.value.config)
                             else h.prepared.None?)
            && (a.reply.Aborted? ==>
                  && a.reply.revision == h.config.group.revision && a.host.prepared == None
                  && a.host == h.(prepared := None, disk := h.disk.(pending := a.host.disk.pending))
                  && (unlinked && h.prepared.Some? ==> a.host.disk.pending == None))
  {
    HeldIs(h, late, unlinked);
    hide Expired, Expires, Follows;
  }

  /** After an acknowledged abort the next good candidate is accepted, whatever was held before. */
  lemma AbortMakesRoom(h: Host, revision: int, sha: Sha, late: bool, unlinked: bool, candidate: Config, env: PrepareEnv)
    requires HostInv(h) && Abort(h, revision, sha, late, unlinked).reply.Aborted?
    requires FileKnown(h) && Succeeds(candidate, h.config)
    requires env.readable && env.parses && env.credentials && env.written
    ensures Prepare(Abort(h, revision, sha, late, unlinked).host, candidate, env).reply
            == IsPrepared(candidate.group.revision, ConfigSha(candidate))
  {
    AbortOutcome(h, revision, sha, late, unlinked);
    StepKeepsInv(h, OpAbort(revision, sha, late, unlinked));
    hide Abort, Prepare, HostInv;
    PrepareOutcome(Abort(h, revision, sha, late, unlinked).host, candidate, env);
  }

  /** `reload`: accepted exactly for the running document in some layout, with no candidate held. */
  lemma ReloadOutcome(h: Host, late: bool, unlinked: bool)
    requires HostInv(h)
    ensures var a := Reload(h, late, unlinked);
            && (a.reply.IsActive? <==>
                  Runs(h) && Held(h, late).None? && h.disk.active.Text? && h.disk.active.config == h.config)
            && (a.reply.IsActive? ==> FileKnown(a.host) && a.host.config == h.config)
  {
    HeldIs(h, late, unlinked);
    hide Expired, Expires, Follows;
  }

  /** `start`: a candidate is adopted exactly if its envelope is whole, in time, and made for this very file. */
  lemma RestartOutcome(disk: Disk, env: RecoverEnv)
    ensures Restart(disk, env).Some? <==> disk.active.Text?
    ensures Restart(disk, env).Some? ==>
              var h := Restart(disk, env).value;
              && h.config == disk.active.config && h.provider == h.config.group && h.phase == Running
              && FileKnown(h) && h.disk == disk && h.descriptorRevision == h.config.group.revision
              && (h.prepared.Some? <==>
                    && env.inTime && env.parses && env.credentials && disk.pending.Some? && disk.pending.value.Sealed?
                    && var e := disk.pending.value.envelope;
                       && e.baseRevision == h.config.group.revision && e.baseFileSha == Sha(disk.active)
                       && e.sha == ConfigSha(e.config) && e.configRevision == e.config.group.revision
                       && Succeeds(e.config, h.config))
              && (h.prepared.Some? ==> h.prepared.value.config == disk.pending.value.envelope.config)
  {
  }
}
