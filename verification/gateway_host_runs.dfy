/** Crashes and whole runs of the gateway process. */
module GatewayHostRuns {
  import opened Common
  import opened GatewayHost

  // -------------------------------------------------------------------- crashes

  /** The disk between the two ends of a commit: the candidate is in place, its pending file may be gone. */
  predicate MidActivation(h: Host, d: Disk) {
    && Up(h) && h.prepared.Some? && h.disk.pending == Some(h.prepared.value.pendingSha)
    && h.prepared.value.baseRevision == h.config.group.revision
    && Sha(h.disk.active) == h.fileSha == h.prepared.value.baseFileSha
    && d.active == Canonical(h.prepared.value.config)
    && (d.pending == h.disk.pending || d.pending == None)
  }

  /**
   After a crash inside an activation the restarted host runs the new configuration whole and
   does not adopt the candidate it has just activated.
   */
  lemma CrashAfterReplace(h: Host, d: Disk, env: RecoverEnv)
    requires HostInv(h) && MidActivation(h, d)
    ensures var r := Restart(d, env);
            && r.Some?
            && r.value.config == h.prepared.value.config
            && Follows(r.value.config, h.config)
            && r.value.prepared == None
  {
    var p := h.prepared.value;
    assert d.active != h.disk.active;
  }

  /** A crash before the replacement keeps the old configuration and at most the same candidate. */
  lemma CrashBeforeReplace(h: Host, env: RecoverEnv)
    requires HostInv(h) && Up(h) && h.disk.active.Text? && h.disk.active.config == h.config
    requires h.prepared.Some? && h.disk.pending == Some(h.prepared.value.pendingSha)
    ensures var r := Restart(h.disk, env);
            && r.Some?
            && r.value.config == h.config
            && (r.value.prepared.Some? ==>
                  r.value.prepared == h.prepared && h.prepared.value.baseFileSha == Sha(h.disk.active))
  {
  }

  // ----------------------------------------------------------------------- runs

  datatype Event =
    | Control(op: Op)
    /** Somebody rewrites the active file in another layout. */
    | Relayout(layout: nat)
    /** The process dies, leaving `disk`, and another one starts. */
    | Crash(disk: Disk, env: RecoverEnv)

  predicate Possible(h: Host, e: Event) {
    match e
    case Control(_) => true
    case Relayout(_) => h.disk.active.Text?
    case Crash(d, env) => (d == h.disk || MidActivation(h, d)) && Restart(d, env).Some?
  }

  function After(h: Host, e: Event): Host
    requires Possible(h, e)
  {
    match e
    case Control(op) => Next(h, op).host
    case Relayout(layout) => h.(disk := h.disk.(active := Text(h.disk.active.config, layout)))
    case Crash(d, env) => Restart(d, env).value
  }

  /** The active file denotes the running configuration, or, after a failed rollback, the refused candidate. */
  predicate DiskOk(h: Host) {
    && h.disk.active.Text?
    && (h.disk.active.config == h.config || (h.phase == HostFailed && Follows(h.disk.active.config, h.config)))
  }

  /** A candidate is ahead of the configuration that runs. */
  predicate CandidateAhead(h: Host) {
    h.prepared.Some? ==> h.prepared.value.config.group.revision > h.config.group.revision
  }

  predicate RunInv(h: Host) {
    HostInv(h) && DiskOk(h) && CandidateAhead(h)
  }

  /** The active configuration is kept, or replaced by one of a higher revision of the same installation. */
  predicate Advances(a: Config, b: Config) {
    a == b || Follows(b, a)
  }

  lemma StepKeepsAhead(h: Host, op: Op)
    requires HostInv(h) && CandidateAhead(h)
    ensures CandidateAhead(Next(h, op).host)
  {
  }

  lemma EventAdvances(h: Host, e: Event)
    requires RunInv(h) && Possible(h, e)
    ensures RunInv(After(h, e)) && Advances(h.config, After(h, e).config)
  {
    match e
    case Control(op) =>
      StepKeepsInv(h, op);
      StepKeepsAhead(h, op);
      if Up(h) {
        StepActivates(h, op);
        FailedKeepsCandidate(h, op);
        hide Next;
      }
    case Relayout(_) =>
    case Crash(d, env) =>
      RestartKeepsInv(d, env);
      if d != h.disk {
        CrashAfterReplace(h, d, env);
      }
  }

  /** A host taken down by a failed rollback leaves the refused candidate on disk. */
  lemma FailedKeepsCandidate(h: Host, op: Op)
    requires RunInv(h) && Up(h)
    ensures var h' := Next(h, op).host;
            h'.phase == HostFailed ==> h'.disk.active.Text? && Follows(h'.disk.active.config, h'.config)
  {
  }

  predicate IsHostRun(hosts: seq<Host>, events: seq<Event>) {
    && |hosts| == |events| + 1
    && RunInv(hosts[0])
    && forall i :: 0 <= i < |events| ==> Happens(hosts[i], events[i], hosts[i + 1])
  }

  predicate Happens(h: Host, e: Event, h': Host) {
    Possible(h, e) && h' == After(h, e)
  }

  lemma {:induction false} HostRunInvariant(hosts: seq<Host>, events: seq<Event>, i: nat)
    requires IsHostRun(hosts, events) && i < |hosts|
    ensures RunInv(hosts[i])
  {
    if i > 0 {
      HostRunInvariant(hosts, events, i - 1);
      hide After, RunInv;
      assert Happens(hosts[i - 1], events[i - 1], hosts[i - 1 + 1]);
      EventAdvances(hosts[i - 1], events[i - 1]);
    }
  }

  lemma AdvancesTransitive(a: Config, b: Config, c: Config)
    requires Advances(a, b) && Advances(b, c)
    ensures Advances(a, c)
  {
  }

  /**
   Over every run, with crashes at any point, active revisions never fall and no revision is
   ever active with two different configurations, hence with two different hashes.
   */
  lemma {:induction false} ActiveRevisionsRise(hosts: seq<Host>, events: seq<Event>, i: nat, j: nat)
    requires IsHostRun(hosts, events) && i <= j < |hosts|
    ensures Advances(hosts[i].config, hosts[j].config)
    ensures hosts[i].config.group.revision == hosts[j].config.group.revision ==> hosts[i].config == hosts[j].config
    ensures hosts[i].config.group.revision <= hosts[j].config.group.revision
  {
    hide After, RunInv, Possible;
    if i < j {
      ActiveRevisionsRise(hosts, events, i, j - 1);
      HostRunInvariant(hosts, events, j - 1);
      assert Happens(hosts[j - 1], events[j - 1], hosts[j - 1 + 1]);
      EventAdvances(hosts[j - 1], events[j - 1]);
      AdvancesTransitive(hosts[i].config, hosts[j - 1].config, hosts[j].config);
    }
  }

  /**
   Once a revision has been active, no host of the run holds a candidate of that revision or below
   it any more: neither prepared again nor adopted by a restart.
   */
  lemma ActivatedIsNeverAdopted(hosts: seq<Host>, events: seq<Event>, i: nat, j: nat)
    requires IsHostRun(hosts, events) && i <= j < |hosts|
    ensures hosts[j].prepared.Some? ==>
              hosts[j].prepared.value.config.group.revision > hosts[i].config.group.revision
  {
    hide After, IsHostRun;
    ActiveRevisionsRise(hosts, events, i, j);
    HostRunInvariant(hosts, events, j);
  }
}

/** `GatewayProcessHost` as the source runs it, one write at a time. */
module GatewayProcess {
  import opened Common
  import opened H = GatewayHost
  import opened GatewayHostRuns

  class GatewayProcessHost {
    var phase: Phase
    var config: Config
    var provider: GroupConfig
    var configSha: Sha
    var fileSha: Sha
    var prepared: Option<Prepared>
    var disk: Disk
    var descriptorRevision: int
    /** Every state of the disk since the current operation began. */
    ghost var trace: seq<Disk>

    function State(): Host
      reads this
    {
      Host(phase, config, provider, configSha, fileSha, prepared, disk, descriptorRevision)
    }

    /** Start from a file that parses, adopting what `_recover_prepared_config` accepts. */
    constructor (left: Disk, env: RecoverEnv)
      requires left.active.Text?
      ensures Restart(left, env) == Some(State())
      ensures HostInv(State())
    {
      phase := Running;
      config := left.active.config;
      provider := left.active.config.group;
      configSha := ConfigSha(left.active.config);
      fileSha := Sha(left.active);
      prepared := H.Recovered(left.active.config, Sha(left.active), left.pending, env);
      disk := left;
      descriptorRevision := left.active.config.group.revision;
      trace := [left];
      new;
      RestartKeepsInv(left, env);
    }

    method WriteDisk(next: Disk)
      modifies this`disk, this`trace
      ensures disk == next && trace == old(trace) + [next]
    {
      disk := next;
      trace := trace + [next];
    }

    method Discard(unlinked: bool)
      modifies this`prepared, this`disk, this`trace
      ensures State() == Discarded(old(State()), unlinked)
      ensures forall d <- trace :: d in old(trace) || (d.active == old(disk).active && d.pending == None)
    {
      prepared := None;
      if unlinked {
        WriteDisk(disk.(pending := None));
      }
    }

    method Expire(late: bool, unlinked: bool) returns (expired: bool)
      modifies this`prepared, this`disk, this`trace
      ensures expired == Expires(old(State()), late)
      ensures State() == Expired(old(State()), late, unlinked)
      ensures forall d <- trace :: d in old(trace) || (d.active == old(disk).active && d.pending == None)
    {
      expired := prepared.Some? && (late || prepared.value.baseRevision != config.group.revision);
      if expired {
        Discard(unlinked);
      }
    }

    method PrepareConfig(candidate: Config, env: PrepareEnv) returns (reply: Reply)
      modifies this
      ensures H.Prepare(old(State()), candidate, env) == Answer(State(), reply)
    {
      if phase == HostFailed {
        return Refused(NotRunning);
      }
      var _ := Expire(env.late, env.unlinked);
      if !env.readable {
        return Refused(ReadFailed);
      }
      if Sha(disk.active) != fileSha {
        return Refused(ActiveChanged);
      }
      if !env.parses {
        return Refused(ConfigInvalid);
      }
      var revision, sha := candidate.group.revision, ConfigSha(candidate);
      if revision == config.group.revision {
        if sha != configSha {
          return Refused(RevisionConflict);
        }
        return IsActive(revision, sha);
      }
      if !Follows(candidate, config) || !env.credentials {
        return Refused(CandidateRefused);
      }
      if prepared.Some? {
        var existing := prepared.value;
        if existing.config.group.revision == revision {
          if existing.sha == sha {
            return IsPrepared(revision, sha);
          }
          return Refused(RevisionConflict);
        }
        return Refused(PrepareInProgress);
      }
      if !env.written {
        return Refused(WriteFailed);
      }
      var pending := Sealed(Envelope(config.group.revision, fileSha, revision, sha, candidate));
      WriteDisk(disk.(pending := Some(pending)));
      prepared := Some(Prepared(candidate, sha, config.group.revision, fileSha, pending));
      reply := IsPrepared(revision, sha);
    }

    /** Each disk state in between is the old one, or, for a validated candidate, `MidActivation`. */
    method ActivateConfig(revision: int, sha: Sha, env: ActivateEnv) returns (reply: Reply)
      requires HostInv(State())
      modifies this
      ensures H.Activate(old(State()), revision, sha, env) == Answer(State(), reply)
      ensures forall d <- trace ::
                || (d.active == old(disk).active && (d.pending == old(disk).pending || d.pending == None))
                || MidActivation(old(State()), d)
    {
      trace := [disk];
      if phase == HostFailed {
        return Refused(NotRunning);
      }
      if revision == config.group.revision {
        if sha != configSha {
          return Refused(RevisionConflict);
        }
        return IsActive(revision, sha);
      }
      var expired := Expire(env.late, env.unlinked);
      if prepared.None? {
        return Refused(if expired then PrepareExpired else NotPrepared);
      }
      var p := prepared.value;
      if revision != p.config.group.revision {
        return Refused(RevisionMismatch);
      }
      if sha != p.sha {
        return Refused(HashMismatch);
      }
      assert p.baseRevision == config.group.revision;  // a candidate on another base has just expired
      if !env.readable || disk.pending.None? {
        return Refused(ReadFailed);
      }
      var oldActive := disk.active;
      if Sha(oldActive) != p.baseFileSha || Sha(oldActive) != fileSha {
        Discard(env.unlinked);
        return Refused(ActiveChanged);
      }
      if disk.pending.value != p.pendingSha {
        Discard(env.unlinked);
        return Refused(PreparedChanged);
      }
      reply := Commit(p, oldActive, env);
    }

    /** Replace the file, hand the candidate to the provider, and put the file back if it refuses. */
    method Commit(p: Prepared, oldActive: Bytes, env: ActivateEnv) returns (reply: Reply)
      requires Up(State()) && prepared == Some(p) && disk.active == oldActive
      modifies this
      ensures H.Committed(old(State()), env) == Answer(State(), reply)
      ensures forall d <- trace ::
                || d in old(trace)
                || d == old(disk)
                || (d.active == Canonical(p.config) && (d.pending == old(disk).pending || d.pending == None))
    {
      if !env.staged || !env.replaced {
        return Refused(WriteFailed);
      }
      WriteDisk(disk.(active := Canonical(p.config)));
      if !env.accepted {
        if !env.rolledBack {
          phase := HostFailed;
          return Refused(RollbackFailed);
        }
        WriteDisk(disk.(active := oldActive));
        return Refused(ActivationRejected);
      }
      provider := p.config.group;
      config := p.config;
      configSha := p.sha;
      fileSha := p.sha;
      prepared := None;
      if env.unlinked {
        WriteDisk(disk.(pending := None));
      }
      if env.described {
        descriptorRevision := p.config.group.revision;
      }
      reply := IsActive(p.config.group.revision, p.sha);
    }

    method AbortConfig(revision: int, sha: Sha, late: bool, unlinked: bool) returns (reply: Reply)
      modifies this
      ensures H.Abort(old(State()), revision, sha, late, unlinked) == Answer(State(), reply)
    {
      if phase == HostFailed {
        return Refused(NotRunning);
      }
      var expired := Expire(late, unlinked);
      if prepared.None? {
        if expired {
          return Refused(PrepareExpired);
        }
        return Aborted(config.group.revision);
      }
      if revision != prepared.value.config.group.revision {
        return Refused(RevisionMismatch);
      }
      if sha != prepared.value.sha {
        return Refused(HashMismatch);
      }
      Discard(unlinked);
      reply := Aborted(config.group.revision);
    }

    method ReloadConfig(late: bool, unlinked: bool) returns (reply: Reply)
      modifies this
      ensures H.Reload(old(State()), late, unlinked) == Answer(State(), reply)
    {
      if phase == HostFailed {
        return Refused(NotRunning);
      }
      var _ := Expire(late, unlinked);
      if prepared.Some? {
        return Refused(PrepareInProgress);
      }
      if !disk.active.Text? {
        return Refused(ConfigInvalid);
      }
      if ConfigSha(disk.active.config) != configSha {
        return Refused(ReloadRefused);
      }
      fileSha := Sha(disk.active);
      reply := IsActive(config.group.revision, configSha);
    }
  }
}
