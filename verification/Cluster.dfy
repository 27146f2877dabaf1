/** All sources together: the API server, the Services, the job service, and the passes of the workers. */
module Cluster {
  import opened Prelude
  import opened Types
  import Names
  import Jobs
  import Remotes
  import opened Protocol
  import Invariants

  datatype State = State(remotes: map<Key, Remotes.Remote>, jobs: map<string, Jobs.Job>, passes: map<Key, Pass>)

  /** The sources under management, with the fixed places of their jobs, and the receive-adapter image. */
  datatype Config = Config(places: map<Key, Place>, image: string)

  datatype Label = Label(key: Key, act: Action)

  /** No two sources under management share a job name. */
  ghost predicate DistinctJobs(cfg: Config) {
    forall k, l :: k in cfg.places && l in cfg.places && JobAt(k, cfg.places[k]) == JobAt(l, cfg.places[l]) ==> k == l
  }

  ghost predicate SlashFreeConfig(cfg: Config) {
    forall k :: k in cfg.places ==>
      Names.SlashFree(k.name) && Names.SlashFree(cfg.places[k].project) && Names.SlashFree(cfg.places[k].location)
  }

  /** Job names omit the namespace: they are distinct exactly when same-named sources never share a place. */
  lemma DistinctJobsIff(cfg: Config)
    requires SlashFreeConfig(cfg)
    ensures DistinctJobs(cfg) <==>
            forall k, l :: k in cfg.places && l in cfg.places && k.name == l.name && cfg.places[k] == cfg.places[l] ==>
              k == l
  {
    forall k, l | k in cfg.places && l in cfg.places
      ensures JobAt(k, cfg.places[k]) == JobAt(l, cfg.places[l]) <==> k.name == l.name && cfg.places[k] == cfg.places[l]
    {
      var a, b := cfg.places[k], cfg.places[l];
      Names.JobNameInjective(
        Names.JobPath(a.project, a.location, k.name),
        Names.JobPath(b.project, b.location, l.name));
    }
  }

  ghost predicate Init(cfg: Config, s: State) {
    && s.remotes.Keys == cfg.places.Keys
    && (forall k :: k in cfg.places ==> s.remotes[k] == Remotes.EMPTY_REMOTE)
    && (forall k :: k in cfg.places ==> JobAt(k, cfg.places[k]) !in s.jobs)
    && s.passes == map[]
  }

  /** The name that the next job request on k carries: it is computed from the pass's own copy. */
  function Address(cfg: Config, s: State, k: Key): string
    requires k in cfg.places
  {
    if k in s.passes then JobNameOf(s.passes[k].csr) else JobAt(k, cfg.places[k])
  }

  function Next(cfg: Config, s: State, l: Label): State {
    var k := l.key;
    if k !in cfg.places || k !in s.remotes then s
    else
      var n := Address(cfg, s, k);
      var ks := KeyStep(k, cfg.image, KeyState(s.remotes[k], Lookup(s.jobs, n), Lookup(s.passes, k)), l.act);
      State(s.remotes[k := ks.remote], Assign(s.jobs, n, ks.job), Assign(s.passes, k, ks.pass))
  }

  function Run(cfg: Config, s: State, trace: seq<Label>): State
    decreases |trace|
  {
    if trace == [] then s else Run(cfg, Next(cfg, s, trace[0]), trace[1..])
  }

  /** What the stores hold for one key. */
  function View(cfg: Config, s: State, k: Key): KeyState
    requires k in cfg.places && k in s.remotes
  {
    KeyState(s.remotes[k], Lookup(s.jobs, JobAt(k, cfg.places[k])), Lookup(s.passes, k))
  }

  predicate LabelAllowed(cfg: Config, s: State, l: Label) {
    l.key in cfg.places && l.key in s.remotes && Allowed(cfg.places[l.key], View(cfg, s, l.key), l.act)
  }

  predicate RunAllowed(cfg: Config, s: State, trace: seq<Label>)
    decreases |trace|
  {
    trace == [] || (LabelAllowed(cfg, s, trace[0]) && RunAllowed(cfg, Next(cfg, s, trace[0]), trace[1..]))
  }

  ghost predicate ClusterInv(cfg: Config, s: State) {
    && s.remotes.Keys == cfg.places.Keys
    && s.passes.Keys <= cfg.places.Keys
    && forall k :: k in cfg.places ==> Invariants.Inv(k, cfg.places[k], View(cfg, s, k))
  }

  lemma InitInv(cfg: Config, s: State)
    requires Init(cfg, s)
    ensures ClusterInv(cfg, s)
  {
  }

  /** The computed job name is the fixed one. */
  lemma AddressFixed(cfg: Config, s: State, k: Key)
    requires ClusterInv(cfg, s) && k in cfg.places
    ensures Address(cfg, s, k) == JobAt(k, cfg.places[k])
  {
    if k in s.passes {
      Invariants.JobNameOfCopy(k, cfg.places[k], s.remotes[k], s.passes[k]);
    }
  }

  /** A step on one key is that key's own step, and leaves everything that belongs to another key alone. */
  lemma StepFrame(cfg: Config, s: State, l: Label, k: Key)
    requires DistinctJobs(cfg) && ClusterInv(cfg, s) && l.key in cfg.places && k in cfg.places
    ensures var s' := Next(cfg, s, l);
            && k in s'.remotes
            && View(cfg, s', k) == if k == l.key then KeyStep(k, cfg.image, View(cfg, s, k), l.act) else View(cfg, s, k)
  {
    AddressFixed(cfg, s, l.key);
    var n := Address(cfg, s, l.key);
    var ks := KeyStep(l.key, cfg.image, View(cfg, s, l.key), l.act);
    AssignLookup(s.jobs, n, ks.job, JobAt(k, cfg.places[k]));
    AssignLookup(s.passes, l.key, ks.pass, k);
  }

  lemma NextInvAt(cfg: Config, s: State, l: Label, k: Key)
    requires DistinctJobs(cfg) && ClusterInv(cfg, s) && LabelAllowed(cfg, s, l) && k in cfg.places
    ensures k in Next(cfg, s, l).remotes && Invariants.Inv(k, cfg.places[k], View(cfg, Next(cfg, s, l), k))
  {
    StepFrame(cfg, s, l, k);
    if k == l.key {
      Invariants.StepKeeps(k, cfg.image, cfg.places[k], View(cfg, s, k), l.act);
    }
  }

  lemma NextInv(cfg: Config, s: State, l: Label)
    requires DistinctJobs(cfg) && ClusterInv(cfg, s) && LabelAllowed(cfg, s, l)
    ensures ClusterInv(cfg, Next(cfg, s, l))
  {
    var s' := Next(cfg, s, l);
    assert s'.remotes.Keys == cfg.places.Keys && s'.passes.Keys <= cfg.places.Keys;
    forall k | k in cfg.places ensures Invariants.Inv(k, cfg.places[k], View(cfg, s', k)) {
      NextInvAt(cfg, s, l, k);
    }
  }

  /** Every reachable state satisfies the invariant. */
  lemma {:induction false} RunInv(cfg: Config, s: State, trace: seq<Label>)
    requires DistinctJobs(cfg) && ClusterInv(cfg, s) && RunAllowed(cfg, s, trace)
    ensures ClusterInv(cfg, Run(cfg, s, trace))
    decreases |trace|
  {
    if trace != [] {
      NextInv(cfg, s, trace[0]);
      RunInv(cfg, Next(cfg, s, trace[0]), trace[1..]);
    }
  }

  // ----- runs, key by key -----

  /** The steps of a run that are on k. */
  function Project(trace: seq<Label>, k: Key): seq<Action> {
    if trace == [] then []
    else (if trace[0].key == k then [trace[0].act] else []) + Project(trace[1..], k)
  }

  /** A run does to each key what the key's own steps do on their own. */
  lemma {:induction false} RunProjects(cfg: Config, s: State, trace: seq<Label>, k: Key)
    requires DistinctJobs(cfg) && ClusterInv(cfg, s) && RunAllowed(cfg, s, trace) && k in cfg.places
    ensures k in Run(cfg, s, trace).remotes
    ensures View(cfg, Run(cfg, s, trace), k) == KeyRun(k, cfg.image, View(cfg, s, k), Project(trace, k))
    decreases |trace|
  {
    if trace != [] {
      var l, rest := trace[0], trace[1..];
      var s' := Next(cfg, s, l);
      StepFrame(cfg, s, l, k);
      NextInv(cfg, s, l);
      RunProjects(cfg, s', rest, k);
      if l.key == k {
        KeyRunStep(k, cfg.image, View(cfg, s, k), l.act, Project(rest, k));
      } else {
        assert Project(trace, k) == Project(rest, k);
      }
    }
  }

  lemma KeyRunStep(k: Key, image: string, ks: KeyState, a: Action, rest: seq<Action>)
    ensures KeyRun(k, image, ks, [a] + rest) == KeyRun(k, image, KeyStep(k, image, ks, a), rest)
  {
    assert ([a] + rest)[1..] == rest;
  }

  /** After a first step that is allowed, the rest of the run is as allowed for each key as the whole. */
  lemma FirstAllowed(cfg: Config, s: State, trace: seq<Label>, k: Key)
    requires DistinctJobs(cfg) && ClusterInv(cfg, s) && trace != [] && LabelAllowed(cfg, s, trace[0]) && k in cfg.places
    ensures var s' := Next(cfg, s, trace[0]);
            && k in s'.remotes
            && (KeyAllowed(k, cfg.image, cfg.places[k], View(cfg, s', k), Project(trace[1..], k))
                <==> KeyAllowed(k, cfg.image, cfg.places[k], View(cfg, s, k), Project(trace, k)))
  {
    var l := trace[0];
    StepFrame(cfg, s, l, k);
    if l.key == k {
      assert Project(trace, k)[1..] == Project(trace[1..], k);
    } else {
      assert Project(trace, k) == Project(trace[1..], k);
    }
  }

  /** A run is allowed exactly when it is allowed key by key. */
  lemma {:induction false} AllowedProjects(cfg: Config, s: State, trace: seq<Label>)
    requires DistinctJobs(cfg) && ClusterInv(cfg, s)
    ensures RunAllowed(cfg, s, trace) <==>
            && (forall l <- trace :: l.key in cfg.places)
            && (forall k :: k in cfg.places ==>
                  KeyAllowed(k, cfg.image, cfg.places[k], View(cfg, s, k), Project(trace, k)))
    decreases |trace|
  {
    if trace != [] {
      var l := trace[0];
      assert trace == [l] + trace[1..];
      if l.key in cfg.places && Allowed(cfg.places[l.key], View(cfg, s, l.key), l.act) {
        var s' := Next(cfg, s, l);
        NextInv(cfg, s, l);
        AllowedProjects(cfg, s', trace[1..]);
        forall k | k in cfg.places
          ensures KeyAllowed(k, cfg.image, cfg.places[k], View(cfg, s', k), Project(trace[1..], k))
             <==> KeyAllowed(k, cfg.image, cfg.places[k], View(cfg, s, k), Project(trace, k))
        {
          FirstAllowed(cfg, s, trace, k);
        }
      } else if l.key in cfg.places {
        assert Project(trace, l.key)[0] == l.act;
      }
    }
  }

  lemma OtherJobKept(cfg: Config, s: State, l: Label, n: string)
    requires ClusterInv(cfg, s) && LabelAllowed(cfg, s, l) && JobAt(l.key, cfg.places[l.key]) != n
    ensures Lookup(Next(cfg, s, l).jobs, n) == Lookup(s.jobs, n)
  {
    AddressFixed(cfg, s, l.key);
  }

  /** Jobs under names that no managed source has are never touched. */
  lemma {:induction false} OtherJobsKept(cfg: Config, s: State, trace: seq<Label>, n: string)
    requires DistinctJobs(cfg) && ClusterInv(cfg, s) && RunAllowed(cfg, s, trace)
    requires forall k :: k in cfg.places ==> JobAt(k, cfg.places[k]) != n
    ensures Lookup(Run(cfg, s, trace).jobs, n) == Lookup(s.jobs, n)
    decreases |trace|
  {
    if trace != [] {
      OtherJobKept(cfg, s, trace[0], n);
      NextInv(cfg, s, trace[0]);
      OtherJobsKept(cfg, Next(cfg, s, trace[0]), trace[1..], n);
    }
  }

  /** A state is known from its views and from the jobs that belong to no source under management. */
  lemma SameViews(cfg: Config, a: State, b: State)
    requires ClusterInv(cfg, a) && ClusterInv(cfg, b)
    requires forall k :: k in cfg.places ==> View(cfg, a, k) == View(cfg, b, k)
    requires forall n :: (forall k :: k in cfg.places ==> JobAt(k, cfg.places[k]) != n) ==>
               Lookup(a.jobs, n) == Lookup(b.jobs, n)
    ensures a == b
  {
    forall k ensures Lookup(a.remotes, k) == Lookup(b.remotes, k) && Lookup(a.passes, k) == Lookup(b.passes, k) {
      if k in cfg.places {
        assert View(cfg, a, k) == View(cfg, b, k);
      }
    }
    forall n ensures Lookup(a.jobs, n) == Lookup(b.jobs, n) {
      if k :| k in cfg.places && JobAt(k, cfg.places[k]) == n {
        assert View(cfg, a, k) == View(cfg, b, k);
      }
    }
    SameLookups(a.remotes, b.remotes);
    SameLookups(a.passes, b.passes);
    SameLookups(a.jobs, b.jobs);
  }

  /**
   * Two runs that do the same to each key, in whatever order between the keys, are allowed together and end in
   * the same state.
   */
  lemma OrderBetweenKeys(cfg: Config, s: State, t: seq<Label>, u: seq<Label>)
    requires DistinctJobs(cfg) && ClusterInv(cfg, s) && RunAllowed(cfg, s, t)
    requires forall l <- u :: l.key in cfg.places
    requires forall k :: k in cfg.places ==> Project(t, k) == Project(u, k)
    ensures RunAllowed(cfg, s, u) && Run(cfg, s, u) == Run(cfg, s, t)
  {
    AllowedProjects(cfg, s, t);
    AllowedProjects(cfg, s, u);
    RunInv(cfg, s, t);
    RunInv(cfg, s, u);
    var a, b := Run(cfg, s, t), Run(cfg, s, u);
    forall k | k in cfg.places ensures View(cfg, a, k) == View(cfg, b, k) {
      RunProjects(cfg, s, t, k);
      RunProjects(cfg, s, u, k);
    }
    forall n | forall k :: k in cfg.places ==> JobAt(k, cfg.places[k]) != n
      ensures Lookup(a.jobs, n) == Lookup(b.jobs, n)
    {
      OtherJobsKept(cfg, s, t, n);
      OtherJobsKept(cfg, s, u, n);
    }
    SameViews(cfg, a, b);
  }

  lemma SameLookups<K, V>(m: map<K, V>, n: map<K, V>)
    requires forall k :: Lookup(m, k) == Lookup(n, k)
    ensures m == n
  {
    forall k ensures k in m <==> k in n {
      assert Lookup(m, k) == Lookup(n, k);
    }
    forall k | k in m ensures m[k] == n[k] {
      assert Lookup(m, k) == Lookup(n, k);
    }
  }

  /** The steps of a run on k, in order. */
  function Only(trace: seq<Label>, k: Key): seq<Label> {
    if trace == [] then []
    else (if trace[0].key == k then [trace[0]] else []) + Only(trace[1..], k)
  }

  lemma {:induction false} ProjectAppend(t: seq<Label>, u: seq<Label>, k: Key)
    ensures Project(t + u, k) == Project(t, k) + Project(u, k)
  {
    if t == [] {
      assert t + u == u;
    } else {
      assert (t + u)[1..] == t[1..] + u;
      ProjectAppend(t[1..], u, k);
    }
  }

  lemma {:induction false} ProjectOnly(t: seq<Label>, k: Key, l: Key)
    ensures Project(Only(t, k), l) == if k == l then Project(t, k) else []
    ensures forall x <- Only(t, k) :: x.key == k
  {
    if t != [] {
      ProjectOnly(t[1..], k, l);
      var first := if t[0].key == k then [t[0]] else [];
      ProjectAppend(first, Only(t[1..], k), l);
      if t[0].key == k {
        assert Project(first, l) == (if l == k then [t[0].act] else []) by { assert first[1..] == []; }
      }
    }
  }

  lemma {:induction false} ProjectOutside(t: seq<Label>, k: Key)
    requires forall x <- t :: x.key != k
    ensures Project(t, k) == []
  {
    if t != [] {
      assert t[0] in t;
      ProjectOutside(t[1..], k);
    }
  }

  /**
   * Serialisability: whatever happens on two keys in whatever interleaving - the passes of two workers, and what
   * users, the cache and the Services do meanwhile - has the effect of all that happened on one of the keys,
   * followed by all that happened on the other.
   */
  lemma Serialisable(cfg: Config, s: State, t: seq<Label>, k: Key, l: Key)
    requires DistinctJobs(cfg) && ClusterInv(cfg, s) && RunAllowed(cfg, s, t)
    requires k != l && forall x <- t :: x.key == k || x.key == l
    ensures RunAllowed(cfg, s, Only(t, k) + Only(t, l))
    ensures Run(cfg, s, Only(t, k) + Only(t, l)) == Run(cfg, s, t)
  {
    AllowedProjects(cfg, s, t);
    var u := Only(t, k) + Only(t, l);
    forall x | x in u ensures x.key in cfg.places {
      OnlySubset(t, k);
      OnlySubset(t, l);
    }
    forall m | m in cfg.places ensures Project(u, m) == Project(t, m) {
      ProjectAppend(Only(t, k), Only(t, l), m);
      ProjectOnly(t, k, m);
      ProjectOnly(t, l, m);
      if m != k && m != l {
        ProjectOutside(t, m);
      }
    }
    OrderBetweenKeys(cfg, s, t, u);
  }

  lemma {:induction false} OnlySubset(t: seq<Label>, k: Key)
    ensures forall x <- Only(t, k) :: x in t
  {
    if t != [] {
      OnlySubset(t[1..], k);
      assert t == [t[0]] + t[1..];
    }
  }
}
