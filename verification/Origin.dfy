/** What is kept of an RPC URL (`redact_rpc_origin`). */
module Origin {
  import opened Wrappers
  import opened Bytes
  import opened Errors

  const SCHEME_SEPARATOR: seq<byte> := Ascii("://")
  const HTTP: seq<byte> := Ascii("http")
  const HTTPS: seq<byte> := Ascii("https")

  predicate SeparatorAt(text: seq<byte>, i: nat) {
    i + 3 <= |text| && text[i..i + 3] == SCHEME_SEPARATOR
  }

  /** Position of the first `://`. */
  function FindSeparator(text: seq<byte>, from: nat): (r: Option<nat>)
    requires from <= |text|
    ensures r.Some? ==> from <= r.value && SeparatorAt(text, r.value)
                        && forall j | from <= j < r.value :: !SeparatorAt(text, j)
    ensures r.None? ==> forall j | from <= j :: !SeparatorAt(text, j)
    decreases |text| - from
  {
    if SeparatorAt(text, from) then Some(from)
    else if from == |text| then None
    else FindSeparator(text, from + 1)
  }

  predicate EndsAuthority(c: byte) {
    c == '/' as int || c == '?' as int || c == '#' as int
  }

  /** The text before the first `/`, `?` or `#`. */
  function Authority(text: seq<byte>): (r: seq<byte>)
    ensures r <= text
    ensures forall c | c in r :: !EndsAuthority(c)
    ensures |r| < |text| ==> EndsAuthority(text[|r|])
  {
    if text == [] || EndsAuthority(text[0]) then [] else [text[0]] + Authority(text[1..])
  }

  predicate IsAt(c: byte) {
    c == '@' as int
  }

  /** The text after the last `@`, or all of it. */
  function Host(authority: seq<byte>): (r: seq<byte>)
    ensures |r| <= |authority| && r == authority[|authority| - |r|..]
    ensures forall c | c in r :: !IsAt(c)
    ensures |r| < |authority| ==> IsAt(authority[|authority| - |r| - 1])
  {
    if authority == [] || IsAt(authority[|authority| - 1]) then []
    else Host(authority[..|authority| - 1]) + [authority[|authority| - 1]]
  }

  function RedactOrigin(raw: Vec8): Result<Vec8, CaptureError> {
    match FindSeparator(raw, 0)
    case None => Err(InvalidRpcUrl)
    case Some(at) =>
      var scheme := raw[..at];
      var host := Host(Authority(raw[at + 3..]));
      if scheme != HTTP && scheme != HTTPS then Err(InvalidRpcUrl)
      else if host == [] then Err(InvalidRpcUrl)
      else Ok(scheme + SCHEME_SEPARATOR + host)
  }

  lemma {:induction false} AuthorityIsWhole(text: seq<byte>)
    requires forall c | c in text :: !EndsAuthority(c)
    ensures Authority(text) == text
  {
    if text != [] {
      AuthorityIsWhole(text[1..]);
    }
  }

  /** An accepted origin is its scheme, `://`, and a host without userinfo, path, query or fragment. */
  lemma RedactedShape(raw: Vec8) returns (scheme: seq<byte>, host: seq<byte>)
    requires RedactOrigin(raw).Ok?
    ensures RedactOrigin(raw).value == scheme + SCHEME_SEPARATOR + host
    ensures scheme == HTTP || scheme == HTTPS
    ensures host != [] && forall c | c in host :: !IsAt(c) && !EndsAuthority(c)
  {
    var at := FindSeparator(raw, 0).value;
    scheme := raw[..at];
    var authority := Authority(raw[at + 3..]);
    host := Host(authority);
    forall c | c in host ensures !EndsAuthority(c) {
      assert c in authority;
    }
  }

  lemma SchemesHaveNoColon(scheme: seq<byte>)
    requires scheme == HTTP || scheme == HTTPS
    ensures forall c | c in scheme :: c != ':' as int
  {
  }

  lemma SeparatorAfterScheme(scheme: seq<byte>, host: seq<byte>)
    requires forall c | c in scheme :: c != ':' as int
    ensures FindSeparator(scheme + SCHEME_SEPARATOR + host, 0) == Some(|scheme|)
  {
    var origin := scheme + SCHEME_SEPARATOR + host;
    Slices(scheme, host);
    assert SeparatorAt(origin, |scheme|);
    forall j: nat | j < |scheme| ensures !SeparatorAt(origin, j) {
      assert origin[j] == scheme[j] && scheme[j] in scheme;
      SeparatorStartsWithColon(origin, j);
    }
  }

  lemma SeparatorStartsWithColon(text: seq<byte>, i: nat)
    ensures SeparatorAt(text, i) ==> text[i] == ':' as int
  {
    if SeparatorAt(text, i) {
      assert text[i..i + 3][0] == text[i] && SCHEME_SEPARATOR[0] == ':' as int;
    }
  }

  lemma Slices(scheme: seq<byte>, host: seq<byte>)
    ensures var origin := scheme + SCHEME_SEPARATOR + host;
      && SCHEME_SEPARATOR == origin[|scheme|..|scheme| + 3]
      && origin[..|scheme|] == scheme && origin[|scheme| + 3..] == host
  {
  }

  lemma HostIsWhole(host: seq<byte>)
    requires forall i | 0 <= i < |host| :: !IsAt(host[i])
    ensures Host(host) == host
  {
  }

  /** Redaction is idempotent, so a recorded origin passes the bundle's own check. */
  lemma RedactIdempotent(raw: Vec8)
    requires RedactOrigin(raw).Ok?
    ensures RedactOrigin(RedactOrigin(raw).value) == RedactOrigin(raw)
  {
    var scheme, host := RedactedShape(raw);
    var origin: Vec8 := RedactOrigin(raw).value;
    SchemesHaveNoColon(scheme);
    SeparatorAfterScheme(scheme, host);
    Slices(scheme, host);
    assert origin == scheme + SCHEME_SEPARATOR + host;
    AuthorityIsWhole(host);
    assert forall i | 0 <= i < |host| :: host[i] in host;
    HostIsWhole(host);
  }

  // ----- Exactly which URLs are accepted -----

  /** `scheme://`, then `user@` or nothing, then a host, then nothing or a path, query or fragment. */
  predicate IsUrl(raw: seq<byte>, scheme: seq<byte>, user: seq<byte>, host: seq<byte>, rest: seq<byte>) {
    && raw == scheme + SCHEME_SEPARATOR + (user + host + rest)
    && (scheme == HTTP || scheme == HTTPS)
    && host != [] && (forall c | c in host :: !IsAt(c) && !EndsAuthority(c))
    && (forall c | c in user :: !EndsAuthority(c)) && (user != [] ==> IsAt(user[|user| - 1]))
    && (rest != [] ==> EndsAuthority(rest[0]))
  }

  lemma {:induction false} AuthorityEnds(authority: seq<byte>, rest: seq<byte>)
    requires forall c | c in authority :: !EndsAuthority(c)
    requires rest != [] ==> EndsAuthority(rest[0])
    ensures Authority(authority + rest) == authority
  {
    if authority != [] {
      assert (authority + rest)[1..] == authority[1..] + rest;
      assert authority[0] in authority;
      AuthorityEnds(authority[1..], rest);
    } else {
      assert authority + rest == rest;
    }
  }

  lemma {:induction false} HostFollows(user: seq<byte>, host: seq<byte>)
    requires user != [] ==> IsAt(user[|user| - 1])
    requires forall c | c in host :: !IsAt(c)
    ensures Host(user + host) == host
    decreases |host|
  {
    if host != [] {
      var n := |host| - 1;
      assert (user + host)[..|user| + n] == user + host[..n];
      assert host[n] in host;
      HostFollows(user, host[..n]);
    } else {
      assert user + host == user;
    }
  }

  /** Every URL is accepted, and its scheme and host are what is kept. */
  lemma UrlIsRedacted(raw: Vec8, scheme: seq<byte>, user: seq<byte>, host: seq<byte>, rest: seq<byte>)
    requires IsUrl(raw, scheme, user, host, rest)
    ensures RedactOrigin(raw) == Ok(scheme + SCHEME_SEPARATOR + host)
  {
    var remainder := user + host + rest;
    SchemesHaveNoColon(scheme);
    SeparatorAfterScheme(scheme, remainder);
    Slices(scheme, remainder);
    AuthorityEnds(user + host, rest);
    HostFollows(user, host);
  }

  /** Nothing but URLs is accepted. */
  lemma RedactedIsUrl(raw: Vec8)
    ensures RedactOrigin(raw).Ok? ==> exists scheme, user, host, rest :: IsUrl(raw, scheme, user, host, rest)
  {
    hide Authority, Host, FindSeparator, IsUrl, EndsAuthority, IsAt;
    if RedactOrigin(raw).Ok? {
      var at := FindSeparator(raw, 0).value;
      var scheme, remainder := raw[..at], raw[at + 3..];
      var authority := Authority(remainder);
      var host := Host(authority);
      assert scheme == HTTP || scheme == HTTPS;
      assert host != [];
      hide RedactOrigin;
      SplitAt(raw, at);
      RemainderSplits(raw, scheme, remainder, authority, host);
    }
  }

  lemma SplitAt(raw: seq<byte>, at: nat)
    requires SeparatorAt(raw, at)
    ensures raw == raw[..at] + SCHEME_SEPARATOR + raw[at + 3..]
  {
  }

  lemma RemainderSplits(raw: seq<byte>, scheme: seq<byte>, remainder: seq<byte>, authority: seq<byte>, host: seq<byte>)
    requires raw == scheme + SCHEME_SEPARATOR + remainder && (scheme == HTTP || scheme == HTTPS)
    requires authority <= remainder && forall c | c in authority :: !EndsAuthority(c)
    requires |authority| < |remainder| ==> EndsAuthority(remainder[|authority|])
    requires host != [] && |host| <= |authority| && host == authority[|authority| - |host|..]
    requires forall c | c in host :: !IsAt(c)
    requires |host| < |authority| ==> IsAt(authority[|authority| - |host| - 1])
    ensures IsUrl(raw, scheme, authority[..|authority| - |host|], host, remainder[|authority|..])
  {
    hide EndsAuthority, IsAt;
    var user, rest := authority[..|authority| - |host|], remainder[|authority|..];
    assert authority == user + host;
    assert remainder == user + host + rest;
    assert forall c | c in host :: c in authority;
    assert forall c | c in user :: c in authority;
  }
}
