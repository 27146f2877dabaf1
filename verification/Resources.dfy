/** The receive-adapter Service of a source. */
module Resources {
  import opened Prelude
  import opened Types

  datatype EnvVar = EnvVar(name: string, value: string)

  datatype OwnerRef = OwnerRef(name: string, uid: nat, controller: bool)

  datatype Service = Service(
    name: string,
    namespace: string,
    labels: map<string, string>,
    owners: seq<OwnerRef>,
    serviceAccountName: string,
    image: string,
    env: seq<EnvVar>,
    args: seq<string>,
    domain: string)

  /** MakeService: a Service that has not been given a domain yet. */
  function MakeService(source: Source, image: string): Service {
    var sinkURI := source.status.sinkURI;
    Service(
      source.meta.name,
      source.meta.namespace,
      map["receive-adapter" := "cloudschedulersource"],
      [OwnerRef(source.meta.name, source.meta.uid, true)],
      source.spec.serviceAccountName,
      image,
      [EnvVar("SINK", sinkURI)],
      ["--sink=" + sinkURI],
      "")
  }

  /** The value that the first variable called name has, if any. */
  function EnvValue(env: seq<EnvVar>, name: string): Option<string> {
    if env == [] then None
    else if env[0].name == name then Some(env[0].value)
    else EnvValue(env[1..], name)
  }

  /** The value that the first argument --sink=... carries, if any. */
  function SinkFlag(args: seq<string>): Option<string> {
    if args == [] then None
    else if "--sink=" <= args[0] then Some(args[0][7..])
    else SinkFlag(args[1..])
  }

  /** The adapter reads one and the same sink from its environment and from its command line. */
  ghost predicate SinksAgree(s: Service) {
    EnvValue(s.env, "SINK").Some? && SinkFlag(s.args) == EnvValue(s.env, "SINK")
  }

  /** The Service belongs to its source, and both ways of naming the sink give the source's SinkURI. */
  lemma MakeServiceSink(source: Source, image: string)
    ensures var s := MakeService(source, image);
            && Key(s.namespace, s.name) == KeyOf(source)
            && EnvValue(s.env, "SINK") == Some(source.status.sinkURI)
            && SinksAgree(s) && |s.env| == 1 == |s.args|
            && s.labels == map["receive-adapter" := "cloudschedulersource"] && s.domain == ""
  {
    assert "--sink=" <= "--sink=" + source.status.sinkURI;
    assert ("--sink=" + source.status.sinkURI)[7..] == source.status.sinkURI;
  }

  /** The key, the incarnation, the account, the SinkURI and the image: a Service shows these and nothing else. */
  lemma MakeServiceShows(a: Source, i: string, b: Source, j: string)
    ensures MakeService(a, i) == MakeService(b, j) <==>
            && KeyOf(a) == KeyOf(b) && a.meta.uid == b.meta.uid
            && a.spec.serviceAccountName == b.spec.serviceAccountName
            && a.status.sinkURI == b.status.sinkURI && i == j
  {
  }
}
