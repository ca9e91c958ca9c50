/** The caption under the endpoint field: when the input is non-empty and
    contains `//`, the third piece of `rpc_input.split("/")`, which for a URL
    is its host. The piece always exists, so the `except` around the index
    is never taken for a missing piece. */
module Endpoint {
  import opened Wrappers
  import opened Text

  /** The domain shown as "Connected to", or `None` when no caption with a
      domain is shown. */
  function ConnectedDomain(rpcInput: string): (r: Option<string>)
    ensures r.Some? <==> Contains(rpcInput, "//")
    ensures r.Some? ==> '/' !in r.value
  {
    if rpcInput != "" && Contains(rpcInput, "//") then
      assert "//" == ['/', '/'];
      DoubledSeparatorSplitsThrice(rpcInput, '/');
      Some(Split(rpcInput, '/')[2])
    else None
  }

  /** The pieces of `scheme//host` + path: the scheme, an empty piece, then
      the host (with whatever follows the path's first slash after it). */
  lemma HostIsThirdPiece(scheme: string, host: string, path: string)
    requires '/' !in scheme && '/' !in host
    requires path == [] || path[0] == '/'
    ensures |Split(scheme + ['/'] + (['/'] + (host + path)), '/')| >= 3
    ensures Split(scheme + ['/'] + (['/'] + (host + path)), '/')[2] == host
  {
    var rest := host + path;
    SplitAfterPiece(scheme, '/', ['/'] + rest);
    assert ['/'] + rest == [] + ['/'] + rest;
    SplitAfterPiece([], '/', rest);
    SplitHead(host, '/', path);
  }

  /** `scheme//host` + path contains `//`. */
  lemma UrlHasDoubleSlash(scheme: string, host: string, path: string)
    ensures Contains(scheme + "//" + host + path, "//")
  {
    var s := scheme + "//" + host + path;
    assert s[|scheme|..|scheme| + 2] == "//";
    assert OccursAt(s, "//", |scheme|);
  }

  /** For `scheme//host` followed by nothing or by a path, the caption is the host. */
  lemma UrlHostIsDomain(scheme: string, host: string, path: string)
    requires '/' !in scheme && '/' !in host
    requires path == [] || path[0] == '/'
    ensures ConnectedDomain(scheme + "//" + host + path) == Some(host)
  {
    UrlHasDoubleSlash(scheme, host, path);
    assert scheme + "//" + host + path == scheme + ['/'] + (['/'] + (host + path));
    HostIsThirdPiece(scheme, host, path);
  }
}
