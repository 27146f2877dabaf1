/** Job names and cache keys: how they are put together, and when they come apart again. */
module Names {
  import opened Prelude
  import opened Types

  ghost predicate SlashFree(s: string) {
    '/' !in s
  }

  /** The part of s before its first slash. */
  function Head(s: string): string {
    if s == [] || s[0] == '/' then [] else [s[0]] + Head(s[1..])
  }

  lemma {:induction false} HeadIsPrefix(s: string)
    ensures Head(s) <= s && SlashFree(Head(s))
    ensures |Head(s)| < |s| ==> s[|Head(s)|] == '/'
  {
    if s != [] && s[0] != '/' {
      HeadIsPrefix(s[1..]);
    }
  }

  /** strings.Split on slashes. */
  function Split(s: string): seq<string>
    decreases |s|
  {
    HeadIsPrefix(s);
    var h := Head(s);
    if |h| == |s| then [s] else [h] + Split(s[|h| + 1..])
  }

  /** The segments of parts put together again with slashes. */
  function Join(parts: seq<string>): string
    requires parts != []
  {
    if |parts| == 1 then parts[0] else parts[0] + "/" + Join(parts[1..])
  }

  lemma {:induction false} HeadOfJoined(a: string, rest: string)
    requires SlashFree(a)
    ensures Head(a) == a && Head(a + "/" + rest) == a
  {
    var s := a + "/" + rest;
    if a != [] {
      HeadOfJoined(a[1..], rest);
      assert a == [a[0]] + a[1..];
      assert s[1..] == a[1..] + "/" + rest;
      assert a[0] != '/' by { assert a[0] in a; }
    }
  }

  /** Splitting joined slash-free segments gives the segments back. */
  lemma {:induction false} SplitJoin(parts: seq<string>)
    requires parts != [] && forall p <- parts :: SlashFree(p)
    ensures Split(Join(parts)) == parts
    decreases |parts|
  {
    if |parts| == 1 {
      HeadOfJoined(parts[0], []);
    } else {
      var rest := Join(parts[1..]);
      HeadOfJoined(parts[0], rest);
      SplitJoin(parts[1..]);
      var s := parts[0] + "/" + rest;
      assert s[|parts[0]| + 1..] == rest;
    }
  }

  /** Joining split segments gives the string back, and the segments are slash-free. */
  lemma {:induction false} JoinSplit(s: string)
    ensures Split(s) != [] && Join(Split(s)) == s
    ensures forall p <- Split(s) :: SlashFree(p)
    decreases |s|
  {
    HeadIsPrefix(s);
    var h := Head(s);
    if |h| < |s| {
      JoinSplit(s[|h| + 1..]);
      assert Split(s)[1..] == Split(s[|h| + 1..]);
      assert s == h + "/" + s[|h| + 1..];
    } else {
      assert h == s;
    }
  }

  // ----- Cloud Scheduler job names -----

  function Parent(project: string, location: string): string {
    "projects/" + project + "/locations/" + location
  }

  function JobName(project: string, location: string, name: string): string {
    Parent(project, location) + "/jobs/" + name
  }

  datatype JobPath = JobPath(project: string, location: string, name: string)

  /** Reading a job name back. */
  function ParseJobName(s: string): Option<JobPath> {
    var parts := Split(s);
    if |parts| == 6 && parts[0] == "projects" && parts[2] == "locations" && parts[4] == "jobs"
    then Some(JobPath(parts[1], parts[3], parts[5]))
    else None
  }

  ghost predicate SlashFreePath(p: JobPath) {
    SlashFree(p.project) && SlashFree(p.location) && SlashFree(p.name)
  }

  lemma JoinCons(a: string, rest: seq<string>)
    requires rest != []
    ensures Join([a] + rest) == a + "/" + Join(rest)
  {
    assert ([a] + rest)[1..] == rest;
  }

  lemma JobNameIsJoin(p: JobPath)
    ensures JobName(p.project, p.location, p.name)
         == Join(["projects", p.project, "locations", p.location, "jobs", p.name])
  {
    var name := [p.name];
    var jobs := ["jobs"] + name;
    var location := [p.location] + jobs;
    var locations := ["locations"] + location;
    var project := [p.project] + locations;
    assert Join(name) == p.name;
    JoinCons("jobs", name);
    JoinCons(p.location, jobs);
    JoinCons("locations", location);
    JoinCons(p.project, locations);
    JoinCons("projects", project);
    assert ["projects"] + project == ["projects", p.project, "locations", p.location, "jobs", p.name];
  }

  /** A job name reads back as the path it was built from exactly when that path is slash-free. */
  lemma JobNameParses(p: JobPath)
    ensures ParseJobName(JobName(p.project, p.location, p.name)) == Some(p) <==> SlashFreePath(p)
  {
    var s := JobName(p.project, p.location, p.name);
    var parts := ["projects", p.project, "locations", p.location, "jobs", p.name];
    JobNameIsJoin(p);
    if SlashFreePath(p) {
      assert SlashFree("projects") && SlashFree("locations") && SlashFree("jobs");
      assert forall q <- parts :: SlashFree(q);
      SplitJoin(parts);
    }
    if ParseJobName(s) == Some(p) {
      JoinSplit(s);
      assert p.project == Split(s)[1] && p.location == Split(s)[3] && p.name == Split(s)[5];
    }
  }

  /** Distinct slash-free paths have distinct job names. */
  lemma JobNameInjective(p: JobPath, q: JobPath)
    requires SlashFreePath(p) && SlashFreePath(q)
    ensures JobName(p.project, p.location, p.name) == JobName(q.project, q.location, q.name) <==> p == q
  {
    JobNameParses(p);
    JobNameParses(q);
  }

  /** With a slash in the project, two different paths share one job name. */
  lemma JobNameCollision()
    ensures var p := JobPath("a/locations/b", "c", "n");
            var q := JobPath("a", "b/locations/c", "n");
            p != q && JobName(p.project, p.location, p.name) == JobName(q.project, q.location, q.name)
  {
    var p, q := JobPath("a/locations/b", "c", "n"), JobPath("a", "b/locations/c", "n");
    assert Parent(p.project, p.location) == Parent(q.project, q.location);
    assert p.project != q.project by { assert |p.project| != |q.project|; }
  }

  // ----- work queue and cache keys -----

  /** cache.SplitMetaNamespaceKey: None is the invalid-key error. */
  function SplitKey(key: string): Option<Key> {
    var parts := Split(key);
    if |parts| == 1 then Some(Key("", parts[0]))
    else if |parts| == 2 then Some(Key(parts[0], parts[1]))
    else None
  }

  /** A key without a slash is a name alone, and a key with several slashes is the invalid one. */
  lemma SplitKeyCases(key: string)
    ensures SlashFree(key) <==> SplitKey(key) == Some(Key("", key))
    ensures SplitKey(key).None? <==> exists i, j :: TwoSlashes(key, i, j)
  {
    JoinSplit(key);
    SplitTwice(key);
    if SlashFree(key) { SplitJoin([key]); }
    if |Split(key)| == 2 { assert Join(Split(key)[1..]) == Split(key)[1]; }
  }

  lemma SplitOnce(s: string)
    ensures SlashFree(s) <==> |Split(s)| == 1
  {
    HeadIsPrefix(s);
    JoinSplit(s);
    if |Split(s)| == 1 { assert s in Split(s); }
  }

  predicate TwoSlashes(s: string, i: nat, j: nat) {
    i < j < |s| && s[i] == '/' == s[j]
  }

  lemma SplitTwice(s: string)
    ensures |Split(s)| > 2 <==> exists i, j :: TwoSlashes(s, i, j)
  {
    HeadIsPrefix(s);
    var m := |Head(s)|;
    if m < |s| {
      SplitOnce(s[m + 1..]);
      SlashAfter(s, m);
    } else {
      forall i: nat, j: nat ensures !TwoSlashes(s, i, j) {
        assert i < |s| ==> s[i] in Head(s);
      }
    }
  }

  /** Behind the first slash of s there is another one exactly when s has two. */
  lemma SlashAfter(s: string, m: nat)
    requires m < |s| && s[m] == '/' && SlashFree(s[..m])
    ensures SlashFree(s[m + 1..]) <==> !exists i, j :: TwoSlashes(s, i, j)
  {
    var rest := s[m + 1..];
    if !SlashFree(rest) {
      var j :| 0 <= j < |rest| && rest[j] == '/';
      assert TwoSlashes(s, m, j + m + 1);
    }
    if i: nat, j: nat :| TwoSlashes(s, i, j) {
      assert forall l :: 0 <= l < m ==> s[l] == s[..m][l];
      assert s[j] == rest[j - m - 1];
    }
  }

  /** The key under which the namespace lister looks a source up. */
  function CacheKey(k: Key): string {
    k.namespace + "/" + k.name
  }

  /** A queue key names the source cached under that very key exactly when it holds one slash. */
  lemma KeyRoundTrip(key: string)
    ensures SplitKey(key).Some? && CacheKey(SplitKey(key).value) == key <==> |Split(key)| == 2
  {
    JoinSplit(key);
    var parts := Split(key);
    if |parts| == 2 {
      assert Join(parts[1..]) == parts[1];
    }
    if |parts| == 1 {
      assert parts[0] == key;
      assert |CacheKey(Key("", key))| == |key| + 1;
    }
  }

  /** The lister's key for a namespace and a name splits back to them exactly when both are slash-free. */
  lemma CacheKeySplits(k: Key)
    ensures SplitKey(CacheKey(k)) == Some(k) <==> SlashFree(k.namespace) && SlashFree(k.name)
  {
    var parts := [k.namespace, k.name];
    assert parts[1..] == [k.name];
    assert Join(parts) == CacheKey(k);
    if SlashFree(k.namespace) && SlashFree(k.name) {
      SplitJoin(parts);
    }
    if SplitKey(CacheKey(k)) == Some(k) {
      JoinSplit(CacheKey(k));
    }
  }

  /** A namespace and a name are looked up under the cache key of a slash-free pair only if they are that pair. */
  lemma CacheKeyUnique(k: Key, l: Key)
    requires SlashFree(k.namespace) && SlashFree(k.name) && CacheKey(k) == CacheKey(l)
    ensures k == l
  {
    var s, m, n := CacheKey(k), |k.namespace|, |l.namespace|;
    assert s[m] == '/' && s[n] == '/';
    assert forall i :: 0 <= i < m ==> s[i] == k.namespace[i];
    assert forall i :: m < i < |s| ==> s[i] == k.name[i - m - 1];
    assert m == n;
    assert k.namespace == s[..m] && l.namespace == s[..n];
    assert k.name == s[m + 1..] && l.name == s[n + 1..];
  }

  lemma CacheKeyInjective(k: Key, l: Key)
    requires SlashFree(k.namespace) && SlashFree(k.name) && SlashFree(l.namespace) && SlashFree(l.name)
    ensures CacheKey(k) == CacheKey(l) <==> k == l
  {
    CacheKeySplits(k);
    CacheKeySplits(l);
  }
}
