/** Resolution of a source's sink to the URI that events are sent to. */
module Sinks {
  import opened Prelude
  import opened Types

  /** What the dynamic client and the duck-type decoder say about the referenced object. */
  datatype Fetched =
    | ResourceMissing
    | FetchFailed
    | Undecodable
    | Decoded(hostname: Option<string>)

  function HttpUrl(host: string): string {
    "http://" + host + "/"
  }

  /** The URL is plain http, names this host, and has the root path. */
  predicate RootOf(url: string, host: string) {
    && "http://" <= url && |url| >= 8
    && url[7..|url| - 1] == host
    && url[|url| - 1] == '/'
  }

  /** A host has exactly one such URL. */
  lemma OneRoot(url: string, host: string)
    ensures RootOf(url, host) <==> url == HttpUrl(host)
  {
    if RootOf(url, host) {
      assert url == url[..7] + url[7..|url| - 1] + [url[|url| - 1]];
    }
  }

  /** GetSinkURI: every reply of the cluster has exactly one outcome. */
  function GetSinkURI(sink: Option<ObjectRef>, fetched: Fetched): (r: Result<string>)
    ensures r.Ok? <==> sink.Some? && fetched.Decoded? && fetched.hostname.Some? && fetched.hostname.value != ""
    ensures r.Ok? ==> RootOf(r.value, fetched.hostname.value)
    ensures r == Err(NoSinkRef) <==> sink.None?
    ensures r == Err(NoResource) <==> sink.Some? && fetched.ResourceMissing?
    ensures r == Err(SinkFetch) <==> sink.Some? && fetched.FetchFailed?
    ensures r == Err(SinkDecode) <==> sink.Some? && fetched.Undecodable?
    ensures r == Err(NoAddress) <==> sink.Some? && fetched == Decoded(None)
  {
    if sink.None? then Err(NoSinkRef)
    else match fetched
      case ResourceMissing => Err(NoResource)
      case FetchFailed => Err(SinkFetch)
      case Undecodable => Err(SinkDecode)
      case Decoded(None) => Err(NoAddress)
      case Decoded(Some(h)) =>
        if h == "" then Err(EmptyHostname) else
          assert HttpUrl(h)[7..|HttpUrl(h)| - 1] == h;
          Ok(HttpUrl(h))
  }
}
