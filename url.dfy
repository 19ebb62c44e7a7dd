/**
 * buildWebSocketUrl (webrtc-room-client-url.ts): the signalling address is
 * given as an http(s) URL and is turned into the matching ws(s) URL, the
 * schemes section 3 of RFC 6455 defines. The URL parser splits off a scheme
 * as section 3.1 of RFC 3986 describes it. As the URL Standard's basic URL
 * parser does, it refuses a URL of a special scheme whose authority has no
 * valid host or port, and a URL of any other scheme whose "//" authority has
 * no valid opaque host or port. Serialisation puts the (possibly rewritten)
 * protocol back in front of the unchanged remainder.
 */
module WebSocketUrl {
  import opened Common

  /** A parsed URL: `protocol` is the lower-cased scheme with its ':'; `rest` is everything after it. */
  datatype ParsedUrl = ParsedUrl(protocol: string, rest: string)

  predicate IsLetter(c: char) {
    ('a' <= c <= 'z') || ('A' <= c <= 'Z')
  }

  /** scheme = ALPHA *( ALPHA / DIGIT / "+" / "-" / "." ) */
  predicate IsSchemeChar(c: char) {
    IsLetter(c) || IsDigit(c) || c == '+' || c == '-' || c == '.'
  }

  predicate IsScheme(s: string) {
    |s| > 0 && IsLetter(s[0]) && forall i :: 0 <= i < |s| ==> IsSchemeChar(s[i])
  }

  /** A protocol the parser can produce: a lower-case scheme followed by ':'. */
  predicate IsProtocol(p: string) {
    |p| >= 2 && p[|p| - 1] == ':' && IsScheme(p[..|p| - 1]) && Lower(p[..|p| - 1]) == p[..|p| - 1]
  }

  /** Position of the first occurrence of `c` in `s`. */
  function IndexOf(s: string, c: char): (r: Option<nat>)
    ensures r.None? <==> c !in s
    ensures r.Some? ==> r.value < |s| && s[r.value] == c && c !in s[..r.value]
  {
    if s == [] then None
    else if s[0] == c then Some(0)
    else
      var tail := IndexOf(s[1..], c);
      if tail.None? then None
      else
        assert s[..tail.value + 1] == [s[0]] + s[1..][..tail.value];
        Some(tail.value + 1)
  }

  /** The special schemes that carry a host (`file:` aside), as protocols. */
  predicate IsSpecial(protocol: string) {
    protocol == "http:" || protocol == "https:" || protocol == "ws:" || protocol == "wss:" || protocol == "ftp:"
  }

  predicate IsSlash(c: char) {
    c == '/' || c == '\\'
  }

  /** `s` without its leading slashes and backslashes, which a special URL skips before its authority. */
  function SkipSlashes(s: string): string {
    if s != [] && IsSlash(s[0]) then SkipSlashes(s[1..]) else s
  }

  /** The characters that end an authority; a backslash ends it only in a special URL. */
  predicate EndsAuthority(c: char, special: bool) {
    c == '/' || c == '?' || c == '#' || (special && c == '\\')
  }

  /** The authority: the longest prefix without a character that ends it. */
  function AuthorityOf(s: string, special: bool): string {
    if s == [] || EndsAuthority(s[0], special) then [] else [s[0]] + AuthorityOf(s[1..], special)
  }

  /** The authority after its credentials: everything after the last '@'. */
  function AfterLastAt(s: string): string {
    if s == [] || s[|s| - 1] == '@' then [] else AfterLastAt(s[..|s| - 1]) + [s[|s| - 1]]
  }

  /** What SkipSlashes leaves is a suffix of its input that does not start with a slash. */
  lemma {:induction false} SkipSlashesSuffix(s: string)
    ensures |SkipSlashes(s)| <= |s| && SkipSlashes(s) == s[|s| - |SkipSlashes(s)|..]
    ensures SkipSlashes(s) != [] ==> !IsSlash(SkipSlashes(s)[0])
  {
    if s != [] && IsSlash(s[0]) {
      SkipSlashesSuffix(s[1..]);
    }
  }

  /** The authority is the prefix up to, and without, the first character that ends it. */
  lemma {:induction false} AuthorityPrefix(s: string, special: bool)
    ensures |AuthorityOf(s, special)| <= |s| && AuthorityOf(s, special) == s[..|AuthorityOf(s, special)|]
    ensures forall i :: 0 <= i < |AuthorityOf(s, special)| ==> !EndsAuthority(AuthorityOf(s, special)[i], special)
    ensures |AuthorityOf(s, special)| < |s| ==> EndsAuthority(s[|AuthorityOf(s, special)|], special)
  {
    if s != [] && !EndsAuthority(s[0], special) {
      AuthorityPrefix(s[1..], special);
    }
  }

  /** The host part is the suffix after the last '@', and holds none. */
  lemma {:induction false} AfterLastAtSuffix(s: string)
    ensures |AfterLastAt(s)| <= |s| && AfterLastAt(s) == s[|s| - |AfterLastAt(s)|..]
    ensures '@' !in AfterLastAt(s)
    ensures |AfterLastAt(s)| < |s| ==> s[|s| - |AfterLastAt(s)| - 1] == '@'
  {
    if s != [] && s[|s| - 1] != '@' {
      var init, last := s[..|s| - 1], s[|s| - 1];
      AfterLastAtSuffix(init);
      var r := AfterLastAt(init);
      assert AfterLastAt(s) == r + [last];
      assert s == init + [last];
      assert r + [last] == s[|s| - |r| - 1..];
    }
  }

  /** The forbidden host code points of the URL Standard. */
  predicate IsForbiddenHostChar(c: char) {
    c as int == 0 || c == '\t' || c == '\n' || c == '\r' || c == ' ' || c == '#' || c == '/' || c == ':'
    || c == '<' || c == '>' || c == '?' || c == '@' || c == '[' || c == '\\' || c == ']' || c == '^' || c == '|'
  }

  /** The forbidden domain code points: those of a host, the other C0 controls, '%' and DEL. */
  predicate IsForbiddenDomainChar(c: char) {
    IsForbiddenHostChar(c) || c < ' ' || c == '%' || c as int == 0x7F
  }

  /** The host of a URL that is not special (an opaque host): possibly empty, without a forbidden host code point. */
  predicate IsOpaqueHost(h: string) {
    forall i :: 0 <= i < |h| ==> !IsForbiddenHostChar(h[i])
  }

  /** A host the parser takes: non-empty, without a forbidden code point. */
  predicate IsValidHost(h: string) {
    h != [] && forall i :: 0 <= i < |h| ==> !IsForbiddenDomainChar(h[i])
  }

  /** A port the parser takes: decimal digits up to 65535, or nothing at all. */
  predicate IsValidPort(p: string) {
    AllDigits(p) && DigitsValue(p) <= 65535
  }

  /**
   * What follows a special scheme's ':' holds a valid host and, after the
   * first ':' of the host part, a valid port.
   */
  predicate HasValidHost(rest: string) {
    var hostPort := AfterLastAt(AuthorityOf(SkipSlashes(rest), true));
    match IndexOf(hostPort, ':')
    case None => IsValidHost(hostPort)
    case Some(i) => IsValidHost(hostPort[..i]) && IsValidPort(hostPort[i + 1..])
  }

  /**
   * The authority after the "//" of a URL that is not special: an opaque
   * host, empty only when no credentials precede it, and, after the first
   * ':', a non-empty host and a valid port.
   */
  predicate HasValidOpaqueHost(a: string) {
    var authority := AuthorityOf(a, false);
    var hostPort := AfterLastAt(authority);
    match IndexOf(hostPort, ':')
    case None => IsOpaqueHost(hostPort) && (hostPort == [] ==> '@' !in authority)
    case Some(i) => i > 0 && IsOpaqueHost(hostPort[..i]) && IsValidPort(hostPort[i + 1..])
  }

  /** Whether `rest` begins with the "//" that introduces an authority. */
  predicate HasAuthority(rest: string) {
    |rest| >= 2 && rest[0] == '/' && rest[1] == '/'
  }

  /**
   * What the parser demands after the protocol: a valid host for a special
   * scheme, and a valid opaque host for any other scheme followed by "//".
   */
  predicate AuthorityAccepted(protocol: string, rest: string) {
    if IsSpecial(protocol) then HasValidHost(rest)
    else HasAuthority(rest) ==> HasValidOpaqueHost(rest[2..])
  }

  /** A parsed URL the parser can produce. */
  predicate Accepted(u: ParsedUrl) {
    IsProtocol(u.protocol) && AuthorityAccepted(u.protocol, u.rest)
  }

  /**
   * `new URL(url)`: the text before the first ':' must be a scheme, a
   * special scheme must be followed by a valid host and port, and any other
   * scheme followed by "//" by a valid opaque host and port; otherwise the
   * constructor throws (None).
   */
  function ParseUrl(url: string): (r: Option<ParsedUrl>)
    ensures r.None? <==>
      || IndexOf(url, ':').None?
      || !IsScheme(url[..IndexOf(url, ':').value])
      || !AuthorityAccepted(Lower(url[..IndexOf(url, ':').value]) + ":", url[IndexOf(url, ':').value + 1..])
    ensures r.Some? ==> Accepted(r.value)
    ensures r.Some? ==> |r.value.protocol| + |r.value.rest| == |url|
  {
    match IndexOf(url, ':')
    case None => None
    case Some(i) =>
      if !IsScheme(url[..i]) then None
      else
        var scheme := Lower(url[..i]);
        assert (scheme + ":")[..|scheme|] == scheme;
        assert IsScheme(scheme) by {
          forall k | 0 <= k < |scheme|
            ensures IsSchemeChar(scheme[k])
          {
            assert IsSchemeChar(url[..i][k]);
          }
        }
        assert Lower(scheme) == scheme;
        if !AuthorityAccepted(scheme + ":", url[i + 1..]) then None
        else Some(ParsedUrl(scheme + ":", url[i + 1..]))
  }

  /** `parsedUrl.toString()`, without the URL standard's normalisation of the remainder. */
  function Serialize(u: ParsedUrl): string {
    u.protocol + u.rest
  }

  /** After a protocol the parser produces, the first ':' is the one closing it, since no scheme character is a ':'. */
  lemma SchemeColon(protocol: string, rest: string)
    requires IsProtocol(protocol)
    ensures IndexOf(protocol + rest, ':') == Some(|protocol| - 1)
    ensures (protocol + rest)[..|protocol| - 1] == protocol[..|protocol| - 1]
    ensures (protocol + rest)[|protocol|..] == rest
  {
    var s := protocol + rest;
    var n := |protocol| - 1;
    var scheme := protocol[..n];
    assert s[..n] == scheme;
    assert s[n] == ':';
    assert ':' !in s[..n] by {
      forall k | 0 <= k < n
        ensures s[k] != ':'
      {
        assert IsSchemeChar(scheme[k]);
      }
    }
  }

  /** The serialised form of a URL the parser accepts parses back to it. */
  lemma ParseSerialize(u: ParsedUrl)
    requires Accepted(u)
    ensures ParseUrl(Serialize(u)) == Some(u)
  {
    SchemeColon(u.protocol, u.rest);
    assert u.protocol[..|u.protocol| - 1] + ":" == u.protocol;
  }

  /** The protocol after the two rewrites of buildWebSocketUrl, applied in their order. */
  function WebSocketProtocol(protocol: string): (r: string)
    ensures protocol == "http:" ==> r == "ws:"
    ensures protocol == "https:" ==> r == "wss:"
    ensures protocol != "http:" && protocol != "https:" ==> r == protocol
  {
    var afterFirst := if protocol == "http:" then "ws:" else protocol;
    if afterFirst == "https:" then "wss:" else afterFirst
  }

  /** An insecure page never yields a secure socket, nor a secure one an insecure socket. */
  lemma SecurityPreserved(protocol: string)
    ensures WebSocketProtocol(protocol) == "wss:" <==> protocol == "https:" || protocol == "wss:"
    ensures WebSocketProtocol(protocol) == "ws:" <==> protocol == "http:" || protocol == "ws:"
  {
  }

  /** Rewriting an already rewritten protocol changes nothing. */
  lemma WebSocketProtocolIdempotent(protocol: string)
    ensures WebSocketProtocol(WebSocketProtocol(protocol)) == WebSocketProtocol(protocol)
  {
  }

  /**
   * buildWebSocketUrl: parse, rewrite http: to ws:, then https: to wss:, and
   * serialise; an input the parser refuses is returned as given.
   */
  method BuildWebSocketUrl(url: string) returns (r: string)
    ensures ParseUrl(url).None? ==> r == url
    ensures ParseUrl(url).Some? ==>
      r == Serialize(ParseUrl(url).value.(protocol := WebSocketProtocol(ParseUrl(url).value.protocol)))
    ensures ParseUrl(url).Some? ==>
      ParseUrl(r) == Some(ParseUrl(url).value.(protocol := WebSocketProtocol(ParseUrl(url).value.protocol)))
  {
    var parsed := ParseUrl(url);
    if parsed.None? {
      return url;
    }
    var parsedUrl := parsed.value;
    if parsedUrl.protocol == "http:" {
      parsedUrl := parsedUrl.(protocol := "ws:");
    }
    if parsedUrl.protocol == "https:" {
      parsedUrl := parsedUrl.(protocol := "wss:");
    }
    assert IsProtocol("ws:") by {
      assert "ws:"[..2] == "ws";
    }
    assert IsProtocol("wss:") by {
      assert "wss:"[..3] == "wss";
    }
    ParseSerialize(parsedUrl);
    r := Serialize(parsedUrl);
  }

  /** An http URL with a valid host comes out as ws, keeping everything after the scheme. */
  lemma HttpBecomesWs(rest: string)
    requires HasValidHost(rest)
    ensures ParseUrl("http:" + rest) == Some(ParsedUrl("http:", rest))
    ensures WebSocketProtocol("http:") == "ws:"
  {
    assert IsProtocol("http:") by {
      assert "http:"[..4] == "http";
    }
    ParseSerialize(ParsedUrl("http:", rest));
  }

  /** An https URL with a valid host comes out as wss, keeping everything after the scheme. */
  lemma HttpsBecomesWss(rest: string)
    requires HasValidHost(rest)
    ensures ParseUrl("https:" + rest) == Some(ParsedUrl("https:", rest))
    ensures WebSocketProtocol("https:") == "wss:"
  {
    assert IsProtocol("https:") by {
      assert "https:"[..5] == "https";
    }
    ParseSerialize(ParsedUrl("https:", rest));
  }

  /** A special protocol followed by a remainder without a valid host does not parse. */
  lemma SpecialNeedsHost(protocol: string, rest: string)
    requires IsProtocol(protocol) && IsSpecial(protocol)
    requires !HasValidHost(rest)
    ensures ParseUrl(protocol + rest).None?
  {
    SchemeColon(protocol, rest);
    assert protocol[..|protocol| - 1] + ":" == protocol;
  }

  /** Without a valid host an http(s) URL does not parse, whatever comes after the host part. */
  lemma HostlessHttpRefused(rest: string)
    requires !HasValidHost(rest)
    ensures ParseUrl("http:" + rest).None?
    ensures ParseUrl("https:" + rest).None?
  {
    assert IsProtocol("http:") by {
      assert "http:"[..4] == "http";
    }
    SpecialNeedsHost("http:", rest);
    assert IsProtocol("https:") by {
      assert "https:"[..5] == "https";
    }
    SpecialNeedsHost("https:", rest);
  }

  /** The remainders "" and "//" hold no host at all. */
  lemma MissingHosts()
    ensures !HasValidHost("")
    ensures !HasValidHost("//")
  {
    assert SkipSlashes("/") == "";
    assert "//"[1..] == "/";
  }

  /** A host with a space in it is refused. */
  lemma SpaceInHost()
    ensures !HasValidHost("//a b")
  {
    assert "//a b"[1..] == "/a b" && "/a b"[1..] == "a b";
    assert SkipSlashes("//a b") == "a b";
    assert "a b"[1..] == " b" && " b"[1..] == "b" && "b"[1..] == "";
    assert AuthorityOf("a b", true) == "a b";
    assert "a b"[..2] == "a " && "a "[..1] == "a" && "a"[..0] == "";
    assert AfterLastAt("a b") == "a b";
    assert IndexOf("a b", ':').None?;
    assert IsForbiddenDomainChar("a b"[1]);
  }

  /**
   * An authority `host:port` followed by a path, a query, a fragment or
   * nothing is taken exactly when the port is at most 65535.
   */
  lemma HostPortChecked(host: string, port: string, path: string)
    requires IsValidHost(host) && AllDigits(port)
    requires path == [] || EndsAuthority(path[0], true)
    ensures HasValidHost("//" + host + ":" + port + path) <==> DigitsValue(port) <= 65535
  {
    var hp := host + ":" + port;
    var rest := "//" + host + ":" + port + path;
    assert rest == "//" + (hp + path);
    TwoSlashesSkipped(hp + path);
    HostPortPlain(host, port);
    if path == [] {
      assert hp + path == hp;
      AuthorityIsWhole(hp, true);
    } else {
      AuthorityStops(hp, path, true);
    }
    AfterLastAtWhole(hp);
    FirstColon(host, port);
    PortChecked(rest, hp, |host|);
  }

  /** An opaque host, a ':' and digits hold no character that ends an authority, and no '@'. */
  lemma HostPortPlain(host: string, port: string)
    requires IsOpaqueHost(host) && AllDigits(port)
    ensures forall i :: 0 <= i < |host + ":" + port| ==>
      !EndsAuthority((host + ":" + port)[i], true) && (host + ":" + port)[i] != '@'
  {
    var hp := host + ":" + port;
    forall i | 0 <= i < |hp|
      ensures !EndsAuthority(hp[i], true) && hp[i] != '@'
    {
      if i < |host| {
        assert hp[i] == host[i];
      } else if i > |host| {
        assert hp[i] == port[i - |host| - 1];
      }
    }
  }

  /** With a port, HasValidHost checks the host before the first ':' and the port after it. */
  lemma PortChecked(rest: string, hostPort: string, i: nat)
    requires AfterLastAt(AuthorityOf(SkipSlashes(rest), true)) == hostPort
    requires IndexOf(hostPort, ':') == Some(i)
    ensures HasValidHost(rest) <==> IsValidHost(hostPort[..i]) && IsValidPort(hostPort[i + 1..])
  {
  }

  /** "//" is skipped in front of a remainder that starts with neither slash. */
  lemma TwoSlashesSkipped(s: string)
    requires s == [] || !IsSlash(s[0])
    ensures SkipSlashes("//" + s) == s
  {
    var once := "/" + s;
    assert "//" + s == "/" + once;
    assert ("/" + once)[0] == '/' && ("/" + once)[1..] == once;
    assert SkipSlashes("/" + once) == SkipSlashes(once);
    assert once[0] == '/' && once[1..] == s;
    assert SkipSlashes(once) == SkipSlashes(s);
  }

  /** A port above 65535 is refused. */
  lemma PortOutOfRange()
    ensures !HasValidHost("//h:99999")
  {
    assert "//h:99999" == "//" + "h" + ":" + "99999" + "";
    PortAbove65535();
    HostPortChecked("h", "99999", "");
  }

  lemma PortAbove65535()
    ensures AllDigits("99999") && DigitsValue("99999") > 65535
  {
    assert "99999"[..4] == "9999";
    assert "9999"[..3] == "999";
    assert "999"[..2] == "99";
    assert "99"[..1] == "9";
    assert "9"[..0] == "";
  }

  lemma PortInRange()
    ensures AllDigits("8443") && DigitsValue("8443") <= 65535
  {
    assert "8443"[..3] == "844";
    assert "844"[..2] == "84";
    assert "84"[..1] == "8";
    assert "8"[..0] == "";
  }

  /** A string without a character that ends an authority is all authority. */
  lemma {:induction false} AuthorityIsWhole(s: string, special: bool)
    requires forall i :: 0 <= i < |s| ==> !EndsAuthority(s[i], special)
    ensures AuthorityOf(s, special) == s
  {
    if s != [] {
      AuthorityIsWhole(s[1..], special);
    }
  }

  /** A string without '@' is all host part. */
  lemma {:induction false} AfterLastAtWhole(s: string)
    requires '@' !in s
    ensures AfterLastAt(s) == s
  {
    if s != [] {
      assert '@' !in s[..|s| - 1];
      AfterLastAtWhole(s[..|s| - 1]);
    }
  }

  /** A usual signalling address keeps its host, port and path. */
  lemma SignallingAddressAccepted()
    ensures HasValidHost("//signal.example:8443/ws")
  {
    assert "//signal.example:8443/ws" == "//" + "signal.example" + ":" + "8443" + "/ws";
    PortInRange();
    HostPortChecked("signal.example", "8443", "/ws");
  }

  /** In `host:port` with no ':' in the host, the first ':' is the one after the host. */
  lemma FirstColon(host: string, port: string)
    requires ':' !in host
    ensures IndexOf(host + ":" + port, ':') == Some(|host|)
    ensures (host + ":" + port)[..|host|] == host && (host + ":" + port)[|host| + 1..] == port
  {
    var s := host + ":" + port;
    assert s[..|host|] == host;
    assert s[|host|] == ':';
    assert s[|host| + 1..] == port;
  }

  /** The authority stops at the first character that ends it. */
  lemma {:induction false} AuthorityStops(a: string, tail: string, special: bool)
    requires forall i :: 0 <= i < |a| ==> !EndsAuthority(a[i], special)
    requires tail != [] && EndsAuthority(tail[0], special)
    ensures AuthorityOf(a + tail, special) == a
  {
    if a != [] {
      assert (a + tail)[1..] == a[1..] + tail;
      AuthorityStops(a[1..], tail, special);
    } else {
      assert a + tail == tail;
    }
  }

  /** With no host or an empty one an http(s) URL does not parse, so buildWebSocketUrl hands it back. */
  lemma HostMissingUrlsRefused()
    ensures ParseUrl("http:").None?
    ensures ParseUrl("https://").None?
  {
    MissingHosts();
    assert "http:" == "http:" + "";
    HostlessHttpRefused("");
    assert "https://" == "https:" + "//";
    HostlessHttpRefused("//");
  }

  /** A space in the host stops an http URL from parsing too. */
  lemma SpaceInHostUrlRefused()
    ensures ParseUrl("http://a b").None?
  {
    SpaceInHost();
    assert "http://a b" == "http:" + "//a b";
    HostlessHttpRefused("//a b");
  }

  /** So does a port above 65535. */
  lemma PortOutOfRangeUrlRefused()
    ensures ParseUrl("http://h:99999").None?
  {
    PortOutOfRange();
    assert "http://h:99999" == "http:" + "//h:99999";
    HostlessHttpRefused("//h:99999");
  }

  /** Any other scheme followed by "//" and an authority the parser refuses does not parse either. */
  lemma OpaqueAuthorityRefused(protocol: string, rest: string)
    requires IsProtocol(protocol) && !IsSpecial(protocol)
    requires HasAuthority(rest) && !HasValidOpaqueHost(rest[2..])
    ensures ParseUrl(protocol + rest).None?
  {
    SchemeColon(protocol, rest);
    assert protocol[..|protocol| - 1] + ":" == protocol;
  }

  /** Any other scheme without "//" keeps its remainder as it is. */
  lemma NoAuthorityKept(protocol: string, rest: string)
    requires IsProtocol(protocol) && !IsSpecial(protocol)
    requires !HasAuthority(rest)
    ensures ParseUrl(protocol + rest) == Some(ParsedUrl(protocol, rest))
  {
    ParseSerialize(ParsedUrl(protocol, rest));
  }

  /**
   * An opaque authority `host:port` with a non-empty host, followed by a
   * path, a query, a fragment or nothing, is taken exactly when the port is
   * at most 65535.
   */
  lemma OpaqueHostPortChecked(host: string, port: string, path: string)
    requires host != [] && IsOpaqueHost(host) && AllDigits(port)
    requires path == [] || EndsAuthority(path[0], false)
    ensures HasValidOpaqueHost(host + ":" + port + path) <==> DigitsValue(port) <= 65535
  {
    var hp := host + ":" + port;
    assert host + ":" + port + path == hp + path;
    HostPortPlain(host, port);
    if path == [] {
      assert hp + path == hp;
      AuthorityIsWhole(hp, false);
    } else {
      AuthorityStops(hp, path, false);
    }
    AfterLastAtWhole(hp);
    FirstColon(host, port);
  }

  /** An opaque host may be empty, but not after credentials. */
  lemma EmptyOpaqueHost()
    ensures HasValidOpaqueHost("")
    ensures !HasValidOpaqueHost("u@")
  {
    assert "u@"[0] == 'u' && "u@"[1..] == "@" && "@"[1..] == "";
    assert AuthorityOf("u@", false) == "u@";
    assert "u@"[..1] == "u";
    assert AfterLastAt("u@") == "";
  }

  /** A space is a forbidden host code point in an opaque host too. */
  lemma OpaqueSpaceInHost()
    ensures !HasValidOpaqueHost("a b")
  {
    assert "a b"[1..] == " b" && " b"[1..] == "b" && "b"[1..] == "";
    assert AuthorityOf("a b", false) == "a b";
    assert "a b"[..2] == "a " && "a "[..1] == "a" && "a"[..0] == "";
    assert AfterLastAt("a b") == "a b";
    assert IndexOf("a b", ':').None?;
    assert IsForbiddenHostChar("a b"[1]);
  }

  /** "foo://a b" does not parse, so buildWebSocketUrl hands it back as given. */
  lemma OpaqueSpaceUrlRefused()
    ensures ParseUrl("foo://a b").None?
  {
    assert IsProtocol("foo:") by {
      assert "foo:"[..3] == "foo";
    }
    assert "foo://a b" == "foo:" + "//a b";
    assert "//a b"[2..] == "a b";
    OpaqueSpaceInHost();
    OpaqueAuthorityRefused("foo:", "//a b");
  }

  /** Nor does "foo://h:99999": the port bound holds for every scheme. */
  lemma OpaquePortUrlRefused()
    ensures ParseUrl("foo://h:99999").None?
  {
    assert IsProtocol("foo:") by {
      assert "foo:"[..3] == "foo";
    }
    assert "foo://h:99999" == "foo:" + "//h:99999";
    assert "//h:99999"[2..] == "h" + ":" + "99999" + "";
    PortAbove65535();
    OpaqueHostPortChecked("h", "99999", "");
    OpaqueAuthorityRefused("foo:", "//h:99999");
  }

  /** A path without a scheme, such as "/ws", is not a URL and is kept as it is. */
  lemma RelativePathRefused()
    ensures ParseUrl("/ws").None?
  {
    assert "/ws"[0] == '/';
  }
}
