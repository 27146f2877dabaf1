/** The calls of passes: each write request has its reason, and no call that fails goes unreported. */
module Calls {
  import opened Prelude
  import opened Types
  import opened Jobs
  import opened Protocol
  import opened Invariants
  import opened Cluster
  import Safety

  // ----- write requests have their reason -----

  /** A Service or a job is created only where there is none, and a job is updated only where it does not fit. */
  predicate Justified(ks: KeyState) {
    ks.pass.Some? ==>
      match ks.pass.value.pc
      case AtCreateService => ks.remote.svc.None?
      case AtCreateJob(_) => ks.job.None?
      case AtUpdateJob(_) =>
        ks.job.Some? && ks.job.value.target.Http? && !Fits(ks.job.value, ks.pass.value.original.spec)
      case _ => true
  }

  lemma GetJobJustifies(k: Key, pl: Place, ks: KeyState, p: Pass, reply: Reply)
    requires Inv(k, pl, ks) && ks.pass == Some(p) && p.pc.AtGetJob?
    ensures Justified(Moved(GetJobStep(ks, p, reply)))
  {
    if ks.job.Some? && ks.job.value.target.Http? {
      AgreesIsFits(ks.job.value, JobNameOf(p.csr), p.csr.spec, p.pc.url);
    }
  }

  lemma StepJustifies(k: Key, image: string, pl: Place, ks: KeyState, a: Action)
    requires Inv(k, pl, ks) && Justified(ks)
    ensures Justified(KeyStep(k, image, ks, a))
  {
    if a.Reply? && ks.pass.Some? && ks.pass.value.pc.AtGetJob? {
      GetJobJustifies(k, pl, ks, ks.pass.value, a.reply);
    }
  }

  lemma {:induction false} RunJustifies(k: Key, image: string, pl: Place, ks: KeyState, actions: seq<Action>)
    requires Inv(k, pl, ks) && KeyAllowed(k, image, pl, ks, actions) && Justified(ks)
    ensures Justified(KeyRun(k, image, ks, actions))
    decreases |actions|
  {
    if actions != [] {
      StepKeeps(k, image, pl, ks, actions[0]);
      StepJustifies(k, image, pl, ks, actions[0]);
      RunJustifies(k, image, pl, KeyStep(k, image, ks, actions[0]), actions[1..]);
    }
  }

  /**
   * In every reachable state, a pass that is about to create its Service or its job finds none there, and one that is
   * about to update its job finds one that does not fit the spec it has read. No such request is ever refused.
   */
  lemma RequestsJustified(cfg: Config, s0: State, trace: seq<Label>, s: State, k: Key)
    requires Safety.Reaches(cfg, s0, trace, s) && k in cfg.places
    ensures k in s.remotes && Justified(View(cfg, s, k))
  {
    InitInv(cfg, s0);
    AllowedProjects(cfg, s0, trace);
    RunProjects(cfg, s0, trace, k);
    RunJustifies(k, cfg.image, cfg.places[k], View(cfg, s0, k), Project(trace, k));
  }

  // ----- failing calls are reported -----

  /** A monitor that is set when a call of the running pass fails, and cleared when a pass begins. */
  predicate Fails(ks: KeyState, a: Action, failed: bool) {
    if a == Begin && ks.pass.None? then false
    else failed || (a.Reply? && a.reply.Fault? && ks.pass.Some? && !ks.pass.value.pc.AtSink?)
  }

  predicate FailsRun(k: Key, image: string, ks: KeyState, actions: seq<Action>, failed: bool)
    decreases |actions|
  {
    if actions == [] then failed
    else FailsRun(k, image, KeyStep(k, image, ks, actions[0]), actions[1..], Fails(ks, actions[0], failed))
  }

  /** A pass with a failed call has its error, and nothing left to do but to write back its copy. */
  predicate Remembers(ks: KeyState, failed: bool) {
    failed && ks.pass.Some? ==>
      ks.pass.value.err.Some? && (ks.pass.value.pc.AtReread? || ks.pass.value.pc.AtWrite?)
  }

  lemma StepRemembers(k: Key, image: string, ks: KeyState, a: Action, failed: bool)
    requires Remembers(ks, failed)
    ensures Remembers(KeyStep(k, image, ks, a), Fails(ks, a, failed))
    ensures Fails(ks, a, failed) ==> Report(image, ks, a) != Some(None)
  {
  }

  lemma {:induction false} RunRemembers(k: Key, image: string, ks: KeyState, actions: seq<Action>, failed: bool)
    requires Remembers(ks, failed)
    ensures Remembers(KeyRun(k, image, ks, actions), FailsRun(k, image, ks, actions, failed))
    decreases |actions|
  {
    if actions != [] {
      StepRemembers(k, image, ks, actions[0], failed);
      RunRemembers(k, image, KeyStep(k, image, ks, actions[0]), actions[1..], Fails(ks, actions[0], failed));
    }
  }

  /**
   * No fault is swallowed. In any run: once a call of a pass has failed, whether it took effect or not, the pass makes
   * no further calls but those of update, and does not report success.
   */
  lemma FaultsReported(cfg: Config, s0: State, trace: seq<Label>, s: State, k: Key, a: Action)
    requires Safety.Reaches(cfg, s0, trace, s) && k in cfg.places
    ensures k in s0.remotes && k in s.remotes
    ensures var failed := FailsRun(k, cfg.image, View(cfg, s0, k), Project(trace, k), false);
            && (failed && k in s.passes ==> s.passes[k].pc.AtReread? || s.passes[k].pc.AtWrite?)
            && (Fails(View(cfg, s, k), a, failed) ==> Report(cfg.image, View(cfg, s, k), a) != Some(None))
  {
    InitInv(cfg, s0);
    AllowedProjects(cfg, s0, trace);
    RunProjects(cfg, s0, trace, k);
    RunRemembers(k, cfg.image, View(cfg, s0, k), Project(trace, k), false);
    StepRemembers(k, cfg.image, View(cfg, s, k),
                  a, FailsRun(k, cfg.image, View(cfg, s0, k), Project(trace, k), false));
  }
}
