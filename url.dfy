/** The part of the WHATWG URL Standard that the gateway relies on: parsing an
    absolute `http`/`https` URL (`new URL(s)` with no base), serialising it
    (`href`), and the `protocol` and `host` setters. */
module WhatwgUrl {
  import opened Wrappers
  import opened Text

  datatype Scheme = Http | Https

  function SchemeName(s: Scheme): string
  {
    match s
    case Http => "http"
    case Https => "https"
  }

  function DefaultPort(s: Scheme): nat
  {
    match s
    case Http => 80
    case Https => 443
  }

  const MaxPort: nat := 65535

  /** A parsed URL. `userinfo` holds the credentials as `href` writes them
      (see `Credentials`), `None` when there are none; `port` is `None` when absent or equal to the scheme's default port;
      `path` is the path, query and fragment, starting with `/`. */
  datatype Url = Url(scheme: Scheme, userinfo: Option<string>, hostname: string, port: Option<nat>, path: string)

  /** Forbidden domain code points, plus every non-ASCII character (the model has no IDNA mapping). */
  predicate IsForbiddenHostChar(c: char)
  {
    c <= '\U{001F}' || c >= '\U{007F}'
    || c == ' ' || c == '#' || c == '%' || c == '/' || c == ':' || c == '<' || c == '>'
    || c == '?' || c == '@' || c == '[' || c == '\\' || c == ']' || c == '^' || c == '|'
  }

  predicate ValidHost(h: string)
  {
    |h| > 0 && forall i :: 0 <= i < |h| ==> !IsForbiddenHostChar(h[i])
  }

  /** What every URL produced by `Parse` looks like. */
  predicate WellFormed(u: Url)
  {
    && ValidHost(u.hostname) && HasNoUpper(u.hostname)
    && (u.userinfo.Some? ==> (forall i :: 0 <= i < |u.userinfo.value| ==> u.userinfo.value[i] !in AuthorityEnd)
                             && Credentials(u.userinfo.value) == u.userinfo)
    && (u.port.Some? ==> u.port.value <= MaxPort && u.port.value != DefaultPort(u.scheme))
    && |u.path| > 0 && u.path[0] == '/'
  }

  /** The characters that end the authority of a URL. */
  const AuthorityEnd: set<char> := {'/', '?', '#'}

  function ParseScheme(text: string): Option<Scheme>
  {
    var l := Lower(text);
    if l == "http" then Some(Http) else if l == "https" then Some(Https) else None
  }

  /** A port number as the URL keeps it: `None` for the default port, failure above 65535. */
  function PortFor(n: nat, scheme: Scheme): Option<Option<nat>>
  {
    if n > MaxPort then None
    else if n == DefaultPort(scheme) then Some(None)
    else Some(Some(n))
  }

  /** The text after `:` in an authority: empty means no port, otherwise digits only. */
  function ParsePort(text: string, scheme: Scheme): Option<Option<nat>>
  {
    if text == "" then Some(None)
    else if !AllDigits(text) then None
    else PortFor(DigitsValue(text), scheme)
  }

  /** `new URL(s)`: `None` is the `TypeError` the constructor throws. */
  function Parse(s: string): (r: Option<Url>)
    ensures r.Some? ==> WellFormed(r.value)
  {
    var colon := IndexOfAny(s, {':'});
    if colon == |s| then None
    else
      var scheme := ParseScheme(s[..colon]);
      var after := s[colon + 1..];
      if scheme.None? || |after| < 2 || after[0] != '/' || after[1] != '/' then None
      else ParseAuthority(scheme.value, after[2..])
  }

  function ParseAuthority(scheme: Scheme, rest: string): (r: Option<Url>)
    ensures r.Some? ==> WellFormed(r.value)
  {
    var e := IndexOfAny(rest, AuthorityEnd);
    var (raw, hostport) := SplitUserinfo(rest[..e]);
    var userinfo := UserinfoOf(raw);
    match ParseHostPort(hostport, scheme)
    case None => None
    case Some((host, port)) => Some(Url(scheme, userinfo, Lower(host), port, PathOf(rest[e..])))
  }

  /** The credentials kept for the text before `@`, if there is one. */
  function UserinfoOf(raw: Option<string>): (c: Option<string>)
    ensures raw.None? ==> c.None?
    ensures raw.Some? ==> c == Credentials(raw.value)
    ensures c.Some? ==> Credentials(c.value) == c
    ensures c.Some? ==> forall i :: 0 <= i < |c.value| ==> c.value[i] in raw.value
  {
    if raw.Some? then
      CredentialsCanonical(raw.value);
      Credentials(raw.value)
    else None
  }

  /** The credentials as the URL keeps and `href` writes them: the username
      (the text before the first `:`), then `:` and the password only when the
      password is not empty, and nothing at all when both are empty. */
  function Credentials(text: string): (r: Option<string>)
    ensures r.None? <==> text == "" || text == ":"
    ensures r.Some? ==> forall i :: 0 <= i < |r.value| ==> r.value[i] in text
  {
    var c := IndexOfAny(text, {':'});
    var username := text[..c];
    var password := if c < |text| then text[c + 1..] else "";
    if username == "" && password == "" then None
    else Some(username + (if password == "" then "" else ":" + password))
  }

  /** Credentials already in that form are kept as they are. */
  lemma {:induction false} CredentialsCanonical(text: string)
    ensures Credentials(text).Some? ==> Credentials(Credentials(text).value) == Credentials(text)
  {
    var c := IndexOfAny(text, {':'});
    var username := text[..c];
    var password := if c < |text| then text[c + 1..] else "";
    if Credentials(text).Some? {
      assert ':' !in username;
      CredentialsOfCanonical(username, password);
    }
  }

  lemma CredentialsOfCanonical(username: string, password: string)
    requires ':' !in username && (username != "" || password != "")
    ensures var x := username + (if password == "" then "" else ":" + password);
            Credentials(x) == Some(x)
  {
    var tail := if password == "" then "" else ":" + password;
    var x := username + tail;
    IndexOfAnySkip(username, tail, {':'});
    assert IndexOfAny(tail, {':'}) == 0;
    assert x[..|username|] == username;
    if password != "" {
      assert x[|username| + 1..] == password;
    }
  }

  /** `http://@host/` is written `http://host/` and `http://user:@host/` is
      written `http://user@host/`: empty credentials and an empty password are
      not kept. */
  lemma EmptyCredentialsDropped(user: string)
    requires ':' !in user
    ensures Credentials("") == None && Credentials(":") == None
    ensures Credentials(user + ":") == if user == "" then None else Some(user)
    ensures user != "" ==> Credentials(user) == Some(user)
  {
    var t := user + ":";
    IndexOfAnySkip(user, ":", {':'});
    assert IndexOfAny(":", {':'}) == 0;
    assert IndexOfAny(t, {':'}) == |user|;
    assert t[..|user|] == user;
    assert t[|user| + 1..] == "";
    if user != "" {
      assert Credentials(t) == Some(user + "");
      assert user + "" == user;
    }
    assert IndexOfAny(user, {':'}) == |user|;
    assert user[..|user|] == user;
  }

  /** The userinfo is what precedes the last `@` of the authority. */
  function SplitUserinfo(authority: string): (Option<string>, string)
  {
    var at := LastIndexOf(authority, '@');
    if at.Some? then (Some(authority[..at.value]), authority[at.value + 1..]) else (None, authority)
  }

  /** The host is what precedes the first `:`; the port what follows it. */
  function ParseHostPort(hostport: string, scheme: Scheme): (r: Option<(string, Option<nat>)>)
    ensures r.Some? ==> ValidHost(r.value.0)
    ensures r.Some? && r.value.1.Some? ==> r.value.1.value <= MaxPort && r.value.1.value != DefaultPort(scheme)
  {
    var c := IndexOfAny(hostport, {':'});
    var host := hostport[..c];
    var port := if c == |hostport| then Some(None) else ParsePort(hostport[c + 1..], scheme);
    if !ValidHost(host) || port.None? then None else Some((host, port.value))
  }

  /** A special URL's path is never empty: a bare query or fragment gets a `/` in front. */
  function PathOf(tail: string): (p: string)
    ensures |p| > 0 && p[0] == '/'
  {
    if tail == [] || tail[0] != '/' then "/" + tail else tail
  }

  function PortSuffix(port: Option<nat>): string
  {
    if port.Some? then ":" + NatToDigits(port.value) else ""
  }

  /** `userinfo@host:port` as `href` writes it. */
  function AuthorityText(u: Url): string
  {
    (if u.userinfo.Some? then u.userinfo.value + "@" else "") + (u.hostname + PortSuffix(u.port))
  }

  /** `url.href` / `url.toString()`: parsing it again gives back the same URL. */
  function Serialize(u: Url): (r: string)
    ensures WellFormed(u) ==> Parse(r) == Some(u)
  {
    ParseSerialized(u);
    SchemeName(u.scheme) + "://" + AuthorityText(u) + u.path
  }

  /** Setting `url.protocol` to another special scheme; a port equal to the new
      scheme's default is dropped. */
  function SetProtocol(u: Url, s: Scheme): (r: Url)
    ensures r.scheme == s && r.userinfo == u.userinfo && r.hostname == u.hostname && r.path == u.path
    ensures r.port == (if u.port == Some(DefaultPort(s)) then None else u.port)
  {
    u.(scheme := s, port := if u.port == Some(DefaultPort(s)) then None else u.port)
  }

  /** Setting `url.host`: the host ends at `:`, `/`, `?`, `#` or `\`; an invalid
      host leaves the URL unchanged; a port is taken from the digits after `:`
      and, when there are none, the old port stays. */
  function SetHost(u: Url, value: string): (r: Url)
    ensures r.scheme == u.scheme && r.userinfo == u.userinfo && r.path == u.path
    ensures var host := value[..IndexOfAny(value, HostEnd)];
            && (!ValidHost(host) ==> r == u)
            && (ValidHost(host) ==> r.hostname == Lower(host))
    ensures r.port != u.port ==> var e := IndexOfAny(value, HostEnd); e < |value| && value[e] == ':'
    ensures WellFormed(u) ==> WellFormed(r)
  {
    var e := IndexOfAny(value, HostEnd);
    var host := value[..e];
    if !ValidHost(host) then u
    else
      LowerKeepsValidHost(host);
      var withHost := u.(hostname := Lower(host));
      if e == |value| || value[e] != ':' then withHost
      else
        var digits := LeadingDigits(value[e + 1..]);
        if digits == "" then withHost
        else
          var p := PortFor(DigitsValue(digits), u.scheme);
          if p.None? then withHost else withHost.(port := p.value)
  }

  /** The characters that end the host in a `host` setter value. */
  const HostEnd: set<char> := {':', '/', '?', '#', '\\'}

  lemma LowerKeepsValidHost(h: string)
    requires ValidHost(h)
    ensures ValidHost(Lower(h)) && HasNoUpper(Lower(h))
  {
  }

  /** The setters keep a URL well formed. */
  lemma SettersKeepWellFormed(u: Url, s: Scheme, value: string)
    requires WellFormed(u)
    ensures WellFormed(SetProtocol(u, s))
    ensures WellFormed(SetHost(u, value))
  {
    var e := IndexOfAny(value, HostEnd);
    if ValidHost(value[..e]) {
      LowerKeepsValidHost(value[..e]);
    }
  }

  /** A `Host` value without a port replaces the host name and keeps the port. */
  lemma SetHostWithoutPort(u: Url, host: string)
    requires ValidHost(host)
    ensures SetHost(u, host) == u.(hostname := Lower(host))
  {
    assert IndexOfAny(host, HostEnd) == |host|;
  }

  /** A `Host` value `host:port` replaces the host name and the port. */
  lemma SetHostWithPort(u: Url, host: string, port: nat)
    requires ValidHost(host) && port <= MaxPort
    ensures SetHost(u, host + ":" + NatToDigits(port))
            == u.(hostname := Lower(host), port := if port == DefaultPort(u.scheme) then None else Some(port))
  {
    var digits := NatToDigits(port);
    var value := host + (":" + digits);
    assert host + ":" + digits == value;
    var stops := HostEnd;
    IndexOfAnySkip(host, ":" + digits, stops);
    assert IndexOfAny(":" + digits, stops) == 0;
    var e := IndexOfAny(value, stops);
    assert e == |host|;
    assert value[..e] == host;
    assert value[e] == ':';
    assert value[e + 1..] == digits;
    LeadingDigitsOfDigits(digits);
    DigitsRoundTrip(port);
  }

  /** The host and port part of a serialised URL reads back as the same host name and port. */
  lemma HostPortRoundTrip(u: Url)
    requires WellFormed(u)
    ensures ParseHostPort(u.hostname + PortSuffix(u.port), u.scheme) == Some((u.hostname, u.port))
  {
    var hostport := u.hostname + PortSuffix(u.port);
    IndexOfAnySkip(u.hostname, PortSuffix(u.port), {':'});
    assert hostport[..|u.hostname|] == u.hostname;
    if u.port.Some? {
      var digits := NatToDigits(u.port.value);
      assert hostport[|u.hostname| + 1..] == digits;
      DigitsRoundTrip(u.port.value);
    } else {
      assert hostport == u.hostname;
    }
  }

  lemma HostPortHasNoAt(u: Url)
    requires WellFormed(u)
    ensures '@' !in u.hostname + PortSuffix(u.port)
  {
    var hostport := u.hostname + PortSuffix(u.port);
    if u.port.Some? {
      var digits := NatToDigits(u.port.value);
      assert forall i :: 0 <= i < |hostport| ==> hostport[i] != '@' by {
        forall i | 0 <= i < |hostport| ensures hostport[i] != '@' {
          if i > |u.hostname| {
            assert hostport[i] == digits[i - |u.hostname| - 1];
          }
        }
      }
    } else {
      assert hostport == u.hostname;
    }
  }

  /** The authority of a serialised URL contains none of the characters that end an authority. */
  lemma AuthorityHasNoEnd(u: Url)
    requires WellFormed(u)
    ensures forall i :: 0 <= i < |AuthorityText(u)| ==> AuthorityText(u)[i] !in AuthorityEnd
  {
    var ui := if u.userinfo.Some? then u.userinfo.value + "@" else "";
    var suffix := PortSuffix(u.port);
    var authority := ui + (u.hostname + suffix);
    forall i | 0 <= i < |authority| ensures authority[i] !in AuthorityEnd {
      if i < |ui| {
        assert authority[i] == ui[i];
      } else if i < |ui| + |u.hostname| {
        assert authority[i] == u.hostname[i - |ui|];
      } else {
        assert authority[i] == suffix[i - |ui| - |u.hostname|];
        if u.port.Some? && i > |ui| + |u.hostname| {
          var digits := NatToDigits(u.port.value);
          assert suffix[i - |ui| - |u.hostname|] == digits[i - |ui| - |u.hostname| - 1];
        }
      }
    }
  }

  lemma SplitUserinfoAt(userinfo: string, hostport: string)
    requires '@' !in hostport
    ensures SplitUserinfo(userinfo + "@" + hostport) == (Some(userinfo), hostport)
  {
    var authority := userinfo + "@" + hostport;
    LastIndexOfAfter(userinfo, hostport);
    assert authority[..|userinfo|] == userinfo;
    assert authority[|userinfo| + 1..] == hostport;
  }

  /** The userinfo and host-port parts of a serialised authority are split apart again. */
  lemma SplitUserinfoRoundTrip(u: Url)
    requires WellFormed(u)
    ensures SplitUserinfo(AuthorityText(u)) == (u.userinfo, u.hostname + PortSuffix(u.port))
  {
    var hostport := u.hostname + PortSuffix(u.port);
    HostPortHasNoAt(u);
    if u.userinfo.Some? {
      SplitUserinfoAt(u.userinfo.value, hostport);
      assert u.userinfo.value + "@" + hostport == (u.userinfo.value + "@") + hostport;
    } else {
      assert "" + hostport == hostport;
    }
  }

  /** The authority and path of a serialised URL read back as the same URL. */
  lemma ParseAuthorityRoundTrip(u: Url)
    requires WellFormed(u)
    ensures ParseAuthority(u.scheme, AuthorityText(u) + u.path) == Some(u)
  {
    var rest := AuthorityText(u) + u.path;
    AuthorityEndsAtPath(u);
    var e := IndexOfAny(rest, AuthorityEnd);
    SplitUserinfoRoundTrip(u);
    HostPortRoundTrip(u);
    LowerOfLower(u.hostname);
    assert PathOf(u.path) == u.path;
    assert SplitUserinfo(rest[..e]) == (u.userinfo, u.hostname + PortSuffix(u.port));
    assert UserinfoOf(u.userinfo) == u.userinfo;
    assert ParseHostPort(u.hostname + PortSuffix(u.port), u.scheme) == Some((u.hostname, u.port));
    assert Url(u.scheme, u.userinfo, Lower(u.hostname), u.port, PathOf(rest[e..])) == u;
  }

  lemma AuthorityEndsAtPath(u: Url)
    requires WellFormed(u)
    ensures var rest := AuthorityText(u) + u.path;
            var e := IndexOfAny(rest, AuthorityEnd);
            e == |AuthorityText(u)| && rest[..e] == AuthorityText(u) && rest[e..] == u.path
  {
    var authority := AuthorityText(u);
    AuthorityHasNoEnd(u);
    IndexOfAnySkip(authority, u.path, AuthorityEnd);
    assert IndexOfAny(u.path, AuthorityEnd) == 0;
  }

  lemma ParseSchemeName(scheme: Scheme)
    ensures ParseScheme(SchemeName(scheme)) == Some(scheme)
  {
    LowerOfLower(SchemeName(scheme));
  }

  lemma ParseSerialized(u: Url)
    ensures WellFormed(u) ==> Parse(SchemeName(u.scheme) + "://" + AuthorityText(u) + u.path) == Some(u)
  {
    if !WellFormed(u) {
      return;
    }
    var rest := AuthorityText(u) + u.path;
    ParseAfterScheme(u.scheme, rest);
    assert SchemeName(u.scheme) + "://" + AuthorityText(u) + u.path == SchemeName(u.scheme) + "://" + rest;
    ParseAuthorityRoundTrip(u);
  }

  lemma ColonAfterScheme(name: string, tail: string)
    requires ':' !in name
    ensures var s := name + ([':'] + tail);
            IndexOfAny(s, {':'}) == |name| && s[..|name|] == name && s[|name| + 1..] == tail
  {
    IndexOfAnySkip(name, [':'] + tail, {':'});
    assert IndexOfAny([':'] + tail, {':'}) == 0;
  }

  /** Behind `scheme://`, parsing is parsing the authority and path. */
  lemma ParseAfterScheme(scheme: Scheme, rest: string)
    ensures Parse(SchemeName(scheme) + "://" + rest) == ParseAuthority(scheme, rest)
  {
    var name := SchemeName(scheme);
    var tail := "//" + rest;
    var s := name + "://" + rest;
    assert s == name + ([':'] + tail);
    ColonAfterScheme(name, tail);
    var colon := IndexOfAny(s, {':'});
    ParseSchemeName(scheme);
    assert s[colon + 1..] == tail;
    assert tail[0] == '/' && tail[1] == '/' && tail[2..] == rest;
  }

  /** An authority that is a bare host parses to that host with the path `/`. */
  lemma ParseAuthorityOfHost(scheme: Scheme, host: string)
    requires ValidHost(host) && HasNoUpper(host)
    ensures ParseAuthority(scheme, host) == Some(Url(scheme, None, host, None, "/"))
  {
    assert IndexOfAny(host, AuthorityEnd) == |host|;
    assert host[..|host|] == host && host[|host|..] == "";
    assert SplitUserinfo(host) == (None, host);
    assert IndexOfAny(host, {':'}) == |host|;
    assert ParseHostPort(host, scheme) == Some((host, None));
    assert PathOf(host[|host|..]) == "/";
    LowerOfLower(host);
  }

  /** A bare origin `scheme://host` parses to that host with the path `/`. */
  lemma ParseOrigin(scheme: Scheme, host: string)
    requires ValidHost(host) && HasNoUpper(host)
    ensures Parse(SchemeName(scheme) + "://" + host) == Some(Url(scheme, None, host, None, "/"))
  {
    ParseAfterScheme(scheme, host);
    ParseAuthorityOfHost(scheme, host);
  }

  /** The last `@` of `a + "@" + b` is the one added, when `b` has none. */
  lemma LastIndexOfAfter(a: string, b: string)
    requires '@' !in b
    ensures LastIndexOf(a + "@" + b, '@') == Some(|a|)
  {
    var s := a + "@" + b;
    assert s[|a|] == '@';
    assert s[|a| + 1..] == b;
  }
}
