/**
 The S3 proxy's two addressing styles: reading bucket and key from a request, and writing them into the
 upstream request. What is signed for the upstream is what was authorized only if the two agree.
 */
module S3Paths {
  import opened Wrappers

  datatype ParsedRequest = ParsedRequest(bucket: string, key: string)

  datatype UpstreamStyle = PathStyle | VirtualHosted

  function TrimSlashes(s: string): (r: string)
    ensures r == [] || r[0] != '/'
    ensures s == [] || s[0] != '/' ==> r == s
    ensures |r| <= |s|
  {
    if s != [] && s[0] == '/' then TrimSlashes(s[1..]) else s
  }

  /** The position of the first `c`, or the length. */
  function IndexOf(s: string, c: char): (i: nat)
    ensures i <= |s| && (i < |s| ==> s[i] == c)
    ensures forall j :: 0 <= j < i ==> s[j] != c
  {
    if s == [] || s[0] == c then 0 else 1 + IndexOf(s[1..], c)
  }

  function ParsePathStyle(path: string): Option<ParsedRequest> {
    var p := TrimSlashes(path);
    if p == [] then None else
    var i := IndexOf(p, '/');
    Some(ParsedRequest(p[..i], if i < |p| then p[i + 1..] else []))
  }

  function HostWithoutPort(host: string): string { host[..IndexOf(host, ':')] }

  function StripSuffix(s: string, suffix: string): Option<string> {
    if |suffix| <= |s| && s[|s| - |suffix|..] == suffix then Some(s[..|s| - |suffix|]) else None
  }

  function BucketFromHost(host: string, proxyDomain: string): Option<string> {
    var bucket := StripSuffix(HostWithoutPort(host), "." + proxyDomain);
    if bucket.Some? && bucket.value != [] then bucket else None
  }

  /** Virtual-hosted style first, if there is a proxy domain, then path style. */
  function ParseIncoming(proxyDomain: Option<string>, host: string, path: string): Option<ParsedRequest> {
    var bucket := if proxyDomain.Some? then BucketFromHost(host, proxyDomain.value) else None;
    if bucket.Some? then Some(ParsedRequest(bucket.value, TrimSlashes(path))) else ParsePathStyle(path)
  }

  /** The upstream URI and Host header. */
  function BuildUpstream(style: UpstreamStyle, endpoint: string, p: ParsedRequest): (string, string) {
    match style
    case PathStyle => (if p.key == [] then "/" + p.bucket else "/" + p.bucket + "/" + p.key, endpoint)
    case VirtualHosted => ("/" + p.key, p.bucket + "." + endpoint)
  }

  /** Without a proxy domain, or when the host's name does not end in a dot and the domain after something,
      a request is read in path style; otherwise what comes before them is the bucket, and the path without
      its leading slashes the key. */
  lemma ReadStyle(proxyDomain: Option<string>, host: string, path: string, bucket: string)
    ensures proxyDomain.None? ==> ParseIncoming(proxyDomain, host, path) == ParsePathStyle(path)
    ensures proxyDomain.Some? && HostWithoutPort(host) == bucket + "." + proxyDomain.value && bucket != [] ==>
              ParseIncoming(proxyDomain, host, path) == Some(ParsedRequest(bucket, TrimSlashes(path)))
    ensures proxyDomain.Some? && !(exists b :: b != [] && HostWithoutPort(host) == b + "." + proxyDomain.value) ==>
              ParseIncoming(proxyDomain, host, path) == ParsePathStyle(path)
  {
    if proxyDomain.Some? {
      var h, suffix := HostWithoutPort(host), "." + proxyDomain.value;
      if StripSuffix(h, suffix).Some? {
        assert h == StripSuffix(h, suffix).value + suffix;
        assert h == StripSuffix(h, suffix).value + "." + proxyDomain.value;
      }
      if h == bucket + "." + proxyDomain.value {
        assert h == bucket + suffix && h[|bucket|..] == suffix && h[..|bucket|] == bucket;
      }
    }
  }

  /** A path that is only slashes names no bucket; any other is, after leading slashes, the bucket up to the
      next slash and the key after it. */
  lemma PathStyleIs(slashes: string, bucket: string, key: string)
    requires forall i :: 0 <= i < |slashes| ==> slashes[i] == '/'
    ensures ParsePathStyle(slashes) == None
    ensures bucket != [] && Without(bucket, '/') ==>
              && ParsePathStyle(slashes + bucket) == Some(ParsedRequest(bucket, []))
              && ParsePathStyle(slashes + bucket + "/" + key) == Some(ParsedRequest(bucket, key))
  {
    TrimsSlashes(slashes, []);
    assert slashes + [] == slashes;
    if bucket != [] && Without(bucket, '/') {
      var rest := bucket + ['/'] + key;
      TrimsSlashes(slashes, bucket);
      TrimsSlashes(slashes, rest);
      assert slashes + bucket + "/" + key == slashes + rest;
      IndexOfFirst(bucket, '/', key);
      assert rest[..|bucket|] == bucket && rest[|bucket| + 1..] == key && bucket[..|bucket|] == bucket;
    }
  }

  lemma {:induction false} TrimsSlashes(slashes: string, rest: string)
    requires forall i :: 0 <= i < |slashes| ==> slashes[i] == '/'
    requires rest == [] || rest[0] != '/'
    ensures TrimSlashes(slashes + rest) == rest
  {
    if slashes == [] {
      assert slashes + rest == rest;
    } else {
      assert (slashes + rest)[1..] == slashes[1..] + rest;
      TrimsSlashes(slashes[1..], rest);
    }
  }

  /** `c` does not occur in `s`. */
  predicate Without(s: string, c: char) { forall i :: 0 <= i < |s| ==> s[i] != c }

  lemma IndexOfFirst(a: string, c: char, b: string)
    requires Without(a, c)
    ensures IndexOf(a + [c] + b, c) == |a| && IndexOf(a, c) == |a|
  {
    var s := a + [c] + b;
    assert s[|a|] == c;
    assert forall j :: 0 <= j < |a| ==> s[j] == a[j];
  }

  /** What path style reads is a bucket that is not empty and has no slash. */
  lemma PathStyleBucket(path: string)
    ensures var r := ParsePathStyle(path);
            r.Some? ==> r.value.bucket != [] && Without(r.value.bucket, '/') && |r.value.bucket| + |r.value.key| <= |path|
  {
  }

  /** Path style: the upstream reads back bucket and key exactly for non-empty buckets without slashes;
      any key will do. */
  lemma PathStyleReadsBack(endpoint: string, p: ParsedRequest)
    ensures ParsePathStyle(BuildUpstream(PathStyle, endpoint, p).0) == Some(p) <==>
            p.bucket != [] && Without(p.bucket, '/')
    ensures BuildUpstream(PathStyle, endpoint, p).1 == endpoint
  {
    var uri := BuildUpstream(PathStyle, endpoint, p).0;
    PathStyleBucket(uri);
    if p.bucket != [] && Without(p.bucket, '/') {
      var rest := uri[1..];
      assert rest[0] == p.bucket[0];
      assert TrimSlashes(uri) == rest;
      IndexOfFirst(p.bucket, '/', p.key);
      if p.key == [] {
        assert rest == p.bucket && rest[..|p.bucket|] == p.bucket;
      } else {
        assert rest == p.bucket + ['/'] + p.key;
        assert rest[..|p.bucket|] == p.bucket && rest[|p.bucket| + 1..] == p.key;
      }
    }
  }

  /** So reading, writing upstream and reading again is reading once, for every request read in path style;
      one read in virtual-hosted style is the same request upstream exactly when its bucket has no slash. */
  lemma ForwardedInPathStyle(proxyDomain: Option<string>, host: string, path: string, endpoint: string)
    ensures var r := ParsePathStyle(path);
            r.Some? ==> ParsePathStyle(BuildUpstream(PathStyle, endpoint, r.value).0) == r
    ensures var r := ParseIncoming(proxyDomain, host, path);
            r.Some? ==> (ParsePathStyle(BuildUpstream(PathStyle, endpoint, r.value).0) == r <==> Without(r.value.bucket, '/'))
  {
    var r, q := ParseIncoming(proxyDomain, host, path), ParsePathStyle(path);
    PathStyleBucket(path);
    if r.Some? {
      PathStyleReadsBack(endpoint, r.value);
    }
    if q.Some? {
      PathStyleReadsBack(endpoint, q.value);
    }
  }

  /** Virtual-hosted style, read with the endpoint's host name as proxy domain: bucket and key come back
      exactly for non-empty buckets without colons and keys that do not start with a slash. */
  lemma VirtualHostedReadsBack(endpoint: string, p: ParsedRequest)
    ensures var (uri, host) := BuildUpstream(VirtualHosted, endpoint, p);
            ParseIncoming(Some(HostWithoutPort(endpoint)), host, uri) == Some(p) <==>
            p.bucket != [] && Without(p.bucket, ':') && (p.key == [] || p.key[0] != '/')
  {
    var (uri, host) := BuildUpstream(VirtualHosted, endpoint, p);
    var domain := HostWithoutPort(endpoint);
    assert uri[1..] == p.key;
    assert TrimSlashes(uri) == TrimSlashes(p.key);
    PathStyleBucket(uri);
    if Without(p.bucket, ':') {
      HostOfVirtualHost(p.bucket, endpoint);
      var h, suffix := HostWithoutPort(host), "." + domain;
      assert h == p.bucket + suffix;
      assert h[|h| - |suffix|..] == suffix && h[..|h| - |suffix|] == p.bucket;
    } else {
      CutHost(p.bucket, endpoint);
    }
  }

  lemma HostOfVirtualHost(bucket: string, endpoint: string)
    requires Without(bucket, ':')
    ensures HostWithoutPort(bucket + "." + endpoint) == bucket + "." + HostWithoutPort(endpoint)
  {
    var host, i := bucket + "." + endpoint, IndexOf(endpoint, ':');
    var n := |bucket| + 1;
    assert forall j :: 0 <= j < |endpoint| ==> host[n + j] == endpoint[j];
    assert forall j :: 0 <= j < |bucket| ==> host[j] == bucket[j];
    var k := IndexOf(host, ':');
    assert host[|bucket|] == '.';
    forall j | 0 <= j < n + i ensures host[j] != ':' {
      if j > |bucket| { assert host[j] == endpoint[j - n]; }
    }
    assert k == n + i;
  }

  /** A bucket with a colon is cut there, so that no bucket as long is read from the host. */
  lemma CutHost(bucket: string, endpoint: string)
    requires !Without(bucket, ':')
    ensures |HostWithoutPort(bucket + "." + endpoint)| < |bucket|
  {
    var i :| 0 <= i < |bucket| && bucket[i] == ':';
    assert (bucket + "." + endpoint)[i] == ':';
  }
}
