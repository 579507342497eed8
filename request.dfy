/** The request methods `DictAsObject` copies from Django's `HttpRequest`:
    choosing and validating the host, composing the full path, the scheme,
    and `build_absolute_uri`. Each is a function of the current scope
    mapping; Django's settings and its URL helpers are parameters. */
module Request {
  import opened Values
  import opened Lookup
  import opened MetaDict

  /** The Django settings the methods consult. */
  datatype Settings = Settings(debug: bool, allowedHosts: seq<string>, useXForwardedHost: bool)

  /** The parts of `urlsplit`'s result that `build_absolute_uri` inspects. */
  datatype SplitResult = SplitResult(scheme: string, netloc: string, path: string)

  /** Library functions whose internals are not modelled. */
  datatype Helpers = Helpers(
    escapeUriPath: string -> string,
    iriToUri: string -> string,
    splitDomainPort: string -> (string, string),
    validateHost: (string, seq<string>) -> bool,
    repr: string -> string,
    urlSplit: string -> SplitResult,
    urlJoin: (string, string) -> string)

  const XForwardedHostKey := "X_FORWARDED_HOST"
  const HostKey := "HOST"
  const DefaultHost := "localhost"
  const PathAttr := "path"
  /** The allow-list used when DEBUG is set and ALLOWED_HOSTS is empty. */
  const DebugAllowedHosts := [".localhost", "127.0.0.1", "[::1]"]

  predicate StartsWith(s: string, prefix: string) {
    |prefix| <= |s| && s[..|prefix|] == prefix
  }

  predicate EndsWith(s: string, suffix: string) {
    |suffix| <= |s| && s[|s| - |suffix|..] == suffix
  }

  /** `t in s` for strings. */
  predicate HasSubstring(s: string, t: string)
    decreases |s|
  {
    StartsWith(s, t) || (|s| > 0 && HasSubstring(s[1..], t))
  }

  /** `s.removeprefix(prefix)`. */
  function RemovePrefix(s: string, prefix: string): string {
    if StartsWith(s, prefix) then s[|prefix|..] else s
  }

  /** `self.META`, read through attribute lookup and used with `.get`, which
      only a mapping has. */
  function CurrentMeta(scope: map<string, Value>): (r: Result<map<string, Value>>)
    ensures GetAttr(scope, MetaAttr).Err? ==> r == Err(GetAttr(scope, MetaAttr).error)
    ensures GetAttr(scope, MetaAttr).Ok? && GetAttr(scope, MetaAttr).value.Dict? ==>
      r == Ok(GetAttr(scope, MetaAttr).value.entries)
    ensures GetAttr(scope, MetaAttr).Ok? && GetAttr(scope, MetaAttr).value.ScopeRef? ==> r == Ok(scope)
    ensures (GetAttr(scope, MetaAttr).Ok? && !GetAttr(scope, MetaAttr).value.Dict?
             && !GetAttr(scope, MetaAttr).value.ScopeRef?) ==> r == Err(WrongType)
  {
    var v :- GetAttr(scope, MetaAttr);
    AsMapping(scope, v)
  }

  /** `key in self.META` for whatever META holds: a key test on a mapping,
      a substring test on a string, always false on a list of header pairs,
      and a type error on a byte string. */
  function MetaHas(scope: map<string, Value>, meta: Value, key: string): Result<bool> {
    match meta
    case Dict(d) => Ok(key in d)
    case ScopeRef => Ok(key in scope)
    case Str(t) => Ok(HasSubstring(t, key))
    case HeaderList(_) => Ok(false)
    case Bytes(_) => Err(WrongType)
  }

  /** `self.META[key]`: only a mapping can be indexed by a string. */
  function MetaItem(scope: map<string, Value>, meta: Value, key: string): Result<Value> {
    var m :- AsMapping(scope, meta);
    if key in m then Ok(m[key]) else Err(KeyError(key))
  }

  /** `_get_raw_host`: X_FORWARDED_HOST when the setting allows it, then HOST,
      then "localhost". */
  function RawHost(scope: map<string, Value>, s: Settings): (r: Result<Value>)
    ensures GetAttr(scope, MetaAttr).Err? ==> r == Err(GetAttr(scope, MetaAttr).error)
    ensures CurrentMeta(scope).Ok? ==>
      var m := CurrentMeta(scope).value;
      && (s.useXForwardedHost && XForwardedHostKey in m ==> r == Ok(m[XForwardedHostKey]))
      && (!(s.useXForwardedHost && XForwardedHostKey in m) && HostKey in m ==> r == Ok(m[HostKey]))
      && (!(s.useXForwardedHost && XForwardedHostKey in m) && HostKey !in m ==> r == Ok(Str(DefaultHost)))
    ensures GetAttr(scope, MetaAttr).Ok? && GetAttr(scope, MetaAttr).value.HeaderList? ==> r == Ok(Str(DefaultHost))
    ensures GetAttr(scope, MetaAttr).Ok? && GetAttr(scope, MetaAttr).value.Str? ==>
      var t := GetAttr(scope, MetaAttr).value.s;
      r == if (s.useXForwardedHost && HasSubstring(t, XForwardedHostKey)) || HasSubstring(t, HostKey)
           then Err(WrongType) else Ok(Str(DefaultHost))
    ensures GetAttr(scope, MetaAttr).Ok? && GetAttr(scope, MetaAttr).value.Bytes? ==> r == Err(WrongType)
  {
    var meta :- GetAttr(scope, MetaAttr);
    var forwarded :- if s.useXForwardedHost then MetaHas(scope, meta, XForwardedHostKey) else Ok(false);
    if forwarded then MetaItem(scope, meta, XForwardedHostKey)
    else
      var host :- MetaHas(scope, meta, HostKey);
      if host then MetaItem(scope, meta, HostKey) else Ok(Str(DefaultHost))
  }

  /** `is_secure`. */
  function IsSecure(s: Settings): (secure: bool)
    ensures secure <==> !s.debug
  {
    !s.debug
  }

  /** The allow-list `get_host` checks against. */
  function AllowedHosts(s: Settings): (hosts: seq<string>)
    ensures s.debug && s.allowedHosts == [] ==> hosts == DebugAllowedHosts
    ensures !(s.debug && s.allowedHosts == []) ==> hosts == s.allowedHosts
  {
    if s.debug && s.allowedHosts == [] then DebugAllowedHosts else s.allowedHosts
  }

  /** The host passes the allow-list: its domain part is non-empty and
      validates against the allowed hosts. */
  predicate HostAccepted(h: Helpers, s: Settings, host: string) {
    var (domain, _) := h.splitDomainPort(host);
    domain != "" && h.validateHost(domain, AllowedHosts(s))
  }

  /** The message of the DisallowedHost exception. */
  function DisallowedHostMessage(h: Helpers, host: string, domain: string): string {
    "Invalid HTTP_HOST header: " + h.repr(host) + "." +
    if domain != "" then " You may need to add " + h.repr(domain) + " to ALLOWED_HOSTS."
    else " The domain name provided is not valid according to RFC 1034/1035."
  }

  /** `get_host`: the raw host, returned unchanged when it passes the
      allow-list, DisallowedHost otherwise. */
  function GetHost(scope: map<string, Value>, s: Settings, h: Helpers): (r: Result<string>)
    ensures r.Ok? ==> RawHost(scope, s) == Ok(Str(r.value)) && HostAccepted(h, s, r.value)
    ensures RawHost(scope, s).Ok? && RawHost(scope, s).value.Str? && HostAccepted(h, s, RawHost(scope, s).value.s)
      ==> r.Ok?
    ensures RawHost(scope, s).Ok? && RawHost(scope, s).value.Str? && !HostAccepted(h, s, RawHost(scope, s).value.s)
      ==> var host := RawHost(scope, s).value.s;
          r == Err(DisallowedHost(DisallowedHostMessage(h, host, h.splitDomainPort(host).0)))
    ensures RawHost(scope, s).Err? ==> r == Err(RawHost(scope, s).error)
  {
    var raw :- RawHost(scope, s);
    match raw
    case Str(host) =>
      if HostAccepted(h, s, host) then Ok(host)
      else Err(DisallowedHost(DisallowedHostMessage(h, host, h.splitDomainPort(host).0)))
    case _ => Err(WrongType)
  }

  /** The cached `_current_scheme_host`: "https://" or "http://" by
      `is_secure`, followed by the validated host. */
  function CurrentSchemeHost(scope: map<string, Value>, s: Settings, h: Helpers): (r: Result<string>)
    ensures r.Ok? <==> GetHost(scope, s, h).Ok?
    ensures GetHost(scope, s, h).Err? ==> r == Err(GetHost(scope, s, h).error)
    ensures r.Ok? ==> (StartsWith(r.value, "https://") <==> !s.debug)
    ensures r.Ok? ==> (StartsWith(r.value, "http://") <==> s.debug)
    ensures r.Ok? ==> EndsWith(r.value, GetHost(scope, s, h).value)
    ensures r.Ok? ==> r.value == (if s.debug then "http://" else "https://") + GetHost(scope, s, h).value
  {
    var host :- GetHost(scope, s, h);
    var scheme := if IsSecure(s) then "https" else "http";
    var r := scheme + "://" + host;
    assert r[..|scheme| + 3] == scheme + "://";
    assert r[|r| - |host|..] == host;
    assert r[4] == (if IsSecure(s) then 's' else ':');
    assert StartsWith(r, "https://") ==> r[4] == "https://"[4];
    assert StartsWith(r, "http://") ==> r[4] == "http://"[4];
    Ok(r)
  }

  /** `self.META.get("QUERY_STRING", "")` as a string. */
  function MetaQueryString(scope: map<string, Value>): (r: Result<string>)
    ensures CurrentMeta(scope).Err? ==> r == Err(CurrentMeta(scope).error)
    ensures CurrentMeta(scope).Ok? && QueryStringKey !in CurrentMeta(scope).value ==> r == Ok("")
    ensures CurrentMeta(scope).Ok? && QueryStringKey in CurrentMeta(scope).value ==>
      var v := CurrentMeta(scope).value[QueryStringKey];
      r == if v.Str? then Ok(v.s) else Err(WrongType)
  {
    var meta :- CurrentMeta(scope);
    if QueryStringKey in meta then
      match meta[QueryStringKey]
      case Str(q) => Ok(q)
      case _ => Err(WrongType)
    else Ok("")
  }

  /** `_get_full_path`: the escaped path, a slash when one is forced and the
      path lacks it, and the converted query string behind "?" when there is one. */
  function FullPath(scope: map<string, Value>, h: Helpers, path: string, forceAppendSlash: bool): (r: Result<string>)
    ensures MetaQueryString(scope).Err? ==> r == Err(MetaQueryString(scope).error)
    ensures r.Ok? <==> MetaQueryString(scope).Ok?
    ensures r.Ok? ==> StartsWith(r.value, h.escapeUriPath(path))
  {
    var q :- MetaQueryString(scope);
    Ok(h.escapeUriPath(path)
       + (if forceAppendSlash && !EndsWith(path, "/") then "/" else "")
       + (if q != "" then "?" + h.iriToUri(q) else ""))
  }

  /** Without a query string, the full path is the escaped path, followed by
      a slash exactly when one is forced and the path does not end in one. */
  lemma FullPathWithoutQuery(scope: map<string, Value>, h: Helpers, path: string, force: bool)
    requires MetaQueryString(scope) == Ok("")
    ensures force && !EndsWith(path, "/") ==> FullPath(scope, h, path, force) == Ok(h.escapeUriPath(path) + "/")
    ensures !(force && !EndsWith(path, "/")) ==> FullPath(scope, h, path, force) == Ok(h.escapeUriPath(path))
  {
    var e := h.escapeUriPath(path);
    assert e + "" + "" == e;
    assert e + "/" + "" == e + "/";
  }

  /** With a query string, the full path ends in "?" and the converted query,
      and starts with the escaped path. */
  lemma FullPathWithQuery(scope: map<string, Value>, h: Helpers, path: string, force: bool, q: string)
    requires MetaQueryString(scope) == Ok(q) && q != ""
    ensures FullPath(scope, h, path, force).Ok?
    ensures StartsWith(FullPath(scope, h, path, force).value, h.escapeUriPath(path))
    ensures EndsWith(FullPath(scope, h, path, force).value, "?" + h.iriToUri(q))
    ensures |FullPath(scope, h, path, force).value| ==
      |h.escapeUriPath(path)| + (if force && !EndsWith(path, "/") then 1 else 0) + 1 + |h.iriToUri(q)|
    ensures force && !EndsWith(path, "/") ==>
      FullPath(scope, h, path, force).value[|h.escapeUriPath(path)|] == '/'
    ensures !(force && !EndsWith(path, "/")) ==>
      FullPath(scope, h, path, force).value[|h.escapeUriPath(path)|] == '?'
  {
  }

  /** Forcing the slash changes nothing for a path that already ends in one,
      and the full path fails exactly when the query string cannot be read. */
  lemma FullPathSlashIdempotent(scope: map<string, Value>, h: Helpers, path: string)
    requires EndsWith(path, "/")
    ensures FullPath(scope, h, path, true) == FullPath(scope, h, path, false)
    ensures FullPath(scope, h, path, true).Ok? <==> MetaQueryString(scope).Ok?
  {
  }

  /** `self.path` as a string. */
  function PathValue(scope: map<string, Value>): (r: Result<string>)
    ensures r.Ok? <==> GetAttr(scope, PathAttr).Ok? && GetAttr(scope, PathAttr).value.Str?
    ensures r.Ok? ==> r.value == GetAttr(scope, PathAttr).value.s
  {
    var v :- GetAttr(scope, PathAttr);
    if v.Str? then Ok(v.s) else Err(WrongType)
  }

  /** `get_full_path`: `_get_full_path` applied to `self.path`. */
  function GetFullPath(scope: map<string, Value>, h: Helpers, forceAppendSlash: bool): (r: Result<string>)
    ensures PathValue(scope).Err? ==> r == Err(PathValue(scope).error)
    ensures PathValue(scope).Ok? ==> r == FullPath(scope, h, PathValue(scope).value, forceAppendSlash)
  {
    var path :- PathValue(scope);
    FullPath(scope, h, path, forceAppendSlash)
  }

  /** The fast path of `build_absolute_uri`: an absolute path with neither
      scheme nor host and no "." or ".." segment needs no `urljoin`. */
  predicate FastPath(bits: SplitResult) {
    && StartsWith(bits.path, "/")
    && bits.scheme == ""
    && bits.netloc == ""
    && !HasSubstring(bits.path, "/./")
    && !HasSubstring(bits.path, "/../")
  }

  /** `build_absolute_uri`: a location with both scheme and host is only
      converted; any other is completed from the current scheme and host,
      by prefixing when it is a plain absolute path and by `urljoin`
      against the current path otherwise. */
  function BuildAbsoluteUri(scope: map<string, Value>, s: Settings, h: Helpers, location: Option<string>): (r: Result<string>)
    ensures location.None? && GetFullPath(scope, h, false).Err? ==> r == Err(GetFullPath(scope, h, false).error)
    ensures r.Err? ==>
      || (location.None? && GetFullPath(scope, h, false) == Err(r.error))
      || GetHost(scope, s, h) == Err(r.error)
      || PathValue(scope) == Err(r.error)
  {
    var loc :- match location
      case None => (var p :- GetFullPath(scope, h, false); Ok("//" + p))
      case Some(l) => Ok(l);
    var bits := h.urlSplit(loc);
    if bits.scheme != "" && bits.netloc != "" then Ok(h.iriToUri(loc))
    else if FastPath(bits) then
      var base :- CurrentSchemeHost(scope, s, h);
      Ok(h.iriToUri(base + RemovePrefix(loc, "//")))
    else
      var base :- CurrentSchemeHost(scope, s, h);
      var path :- PathValue(scope);
      Ok(h.iriToUri(h.urlJoin(base + path, loc)))
  }

  /** A location that names both scheme and host is converted as it is,
      whatever the scope holds: the host is neither read nor validated. */
  lemma AbsoluteLocationSkipsHost(scope: map<string, Value>, s: Settings, h: Helpers, l: string)
    requires h.urlSplit(l).scheme != "" && h.urlSplit(l).netloc != ""
    ensures BuildAbsoluteUri(scope, s, h, Some(l)) == Ok(h.iriToUri(l))
  {
  }

  /** Any other location is completed only from a host that passed the
      allow-list: when `get_host` fails, so does `build_absolute_uri`, with
      the same error. */
  lemma RelativeLocationNeedsValidHost(scope: map<string, Value>, s: Settings, h: Helpers, l: string)
    requires !(h.urlSplit(l).scheme != "" && h.urlSplit(l).netloc != "")
    ensures GetHost(scope, s, h).Err? ==> BuildAbsoluteUri(scope, s, h, Some(l)) == Err(GetHost(scope, s, h).error)
    ensures BuildAbsoluteUri(scope, s, h, Some(l)).Ok? ==> GetHost(scope, s, h).Ok?
  {
  }

  /** On the fast path the location is appended to the scheme and host, with
      a leading "//" dropped. */
  lemma FastPathPrefixesSchemeHost(scope: map<string, Value>, s: Settings, h: Helpers, l: string)
    requires FastPath(h.urlSplit(l))
    requires CurrentSchemeHost(scope, s, h).Ok?
    ensures BuildAbsoluteUri(scope, s, h, Some(l)) ==
      Ok(h.iriToUri(CurrentSchemeHost(scope, s, h).value + RemovePrefix(l, "//")))
  {
  }

  /** After `build_meta`, with USE_X_FORWARDED_HOST set, the raw host is the
      last header that normalises to X_FORWARDED_HOST. */
  lemma ForwardedHostWins(scope: map<string, Value>, hs: seq<Header>, qs: string, s: Settings, i: int)
    requires s.useXForwardedHost && IsLastWith(hs, XForwardedHostKey, i)
    ensures RawHost(AfterBuildMeta(scope, hs, qs), s) == Ok(Str(hs[i].1))
  {
    MetaOfEntries(hs, qs, XForwardedHostKey, i);
  }

  /** After `build_meta`, when X_FORWARDED_HOST is not used or not sent, the
      raw host is the last header that normalises to HOST. */
  lemma HostHeaderUsed(scope: map<string, Value>, hs: seq<Header>, qs: string, s: Settings, i: int)
    requires !s.useXForwardedHost || !Names(hs, XForwardedHostKey)
    requires IsLastWith(hs, HostKey, i)
    ensures RawHost(AfterBuildMeta(scope, hs, qs), s) == Ok(Str(hs[i].1))
  {
    MetaOfEntries(hs, qs, XForwardedHostKey, i);
    MetaOfEntries(hs, qs, HostKey, i);
  }

  /** After `build_meta`, with neither header usable, the raw host is "localhost". */
  lemma LocalhostByDefault(scope: map<string, Value>, hs: seq<Header>, qs: string, s: Settings)
    requires !s.useXForwardedHost || !Names(hs, XForwardedHostKey)
    requires !Names(hs, HostKey)
    ensures RawHost(AfterBuildMeta(scope, hs, qs), s) == Ok(Str(DefaultHost))
  {
    MetaOfEntries(hs, qs, XForwardedHostKey, 0);
    MetaOfEntries(hs, qs, HostKey, 0);
  }

  /** After `build_meta`, the query string of the full path is the one decoded
      from the scope, whatever headers were sent. */
  lemma QueryStringAfterBuildMeta(scope: map<string, Value>, hs: seq<Header>, qs: string)
    ensures MetaQueryString(AfterBuildMeta(scope, hs, qs)) == Ok(qs)
  {
  }
}
