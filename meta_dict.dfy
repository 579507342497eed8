/** The rules of `build_meta`: reading the header list and the query string
    out of the "channels_scope" mapping, and folding the headers into a
    `META` dictionary with normalised keys. The loop itself, and the store
    back into the scope, are `Wrapper.DictAsObject.BuildMeta`. */
module MetaDict {
  import opened Values
  import opened Lookup

  /** The attribute, and so the scope key, that `build_meta` stores into. */
  const MetaAttr := "META"
  const QueryStringKey := "QUERY_STRING"
  const HeadersKey := "headers"
  const RawQueryStringKey := "query_string"

  /** One character of a header name as `replace("-", "_").upper()` rewrites
      it: a hyphen becomes an underscore and an ASCII lower-case letter
      becomes upper case. */
  function NormChar(c: char): char {
    if c == '-' then '_'
    else if 'a' <= c <= 'z' then (c as int - 32) as char
    else c
  }

  /** The `META` key of a header name. */
  function Normalize(name: string): (key: string)
    ensures |key| == |name|
    ensures forall i :: 0 <= i < |key| && name[i] == '-' ==> key[i] == '_'
    ensures forall i :: 0 <= i < |key| && 'a' <= name[i] <= 'z' ==> key[i] as int == name[i] as int - 32
    ensures forall i :: 0 <= i < |key| && name[i] != '-' && !('a' <= name[i] <= 'z') ==> key[i] == name[i]
  {
    seq(|name|, i requires 0 <= i < |name| => NormChar(name[i]))
  }

  /** Normalising a key twice changes nothing. */
  lemma NormalizeIdempotent(name: string)
    ensures Normalize(Normalize(name)) == Normalize(name)
  {
  }

  /** The headers folded into a dictionary front to back, so that a later
      header overwrites an earlier one whose name normalises to the same key. */
  function FoldHeaders(hs: seq<Header>): (meta: map<string, string>)
    ensures meta.Keys <= set i | 0 <= i < |hs| :: Normalize(hs[i].0)
    ensures hs != [] ==> Normalize(hs[|hs| - 1].0) in meta && meta[Normalize(hs[|hs| - 1].0)] == hs[|hs| - 1].1
  {
    if hs == [] then map[]
    else FoldHeaders(hs[..|hs| - 1])[Normalize(hs[|hs| - 1].0) := hs[|hs| - 1].1]
  }

  /** The `META` dictionary of a header list and a decoded query string. */
  function MetaOf(hs: seq<Header>, qs: string): (meta: map<string, string>)
    ensures QueryStringKey in meta && meta[QueryStringKey] == qs
    ensures meta.Keys <= (set i | 0 <= i < |hs| :: Normalize(hs[i].0)) + {QueryStringKey}
  {
    FoldHeaders(hs)[QueryStringKey := qs]
  }

  /** `META` as it is stored in the scope: a nested mapping of strings. */
  function AsValues(m: map<string, string>): (r: map<string, Value>)
    ensures r.Keys == m.Keys
    ensures forall k :: k in r ==> r[k] == Str(m[k])
  {
    map k | k in m :: Str(m[k])
  }

  /** Header `i` is the last one whose name normalises to `key`. */
  ghost predicate IsLastWith(hs: seq<Header>, key: string, i: int) {
    && 0 <= i < |hs|
    && Normalize(hs[i].0) == key
    && forall j :: i < j < |hs| ==> Normalize(hs[j].0) != key
  }

  /** Some header's name normalises to `key`. */
  ghost predicate Names(hs: seq<Header>, key: string) {
    exists i :: 0 <= i < |hs| && Normalize(hs[i].0) == key
  }

  /** The keys of the folded dictionary are exactly the normalised header names. */
  lemma {:induction false} FoldHeadersKeys(hs: seq<Header>, key: string)
    ensures key in FoldHeaders(hs) <==> Names(hs, key)
  {
    if hs != [] {
      var n := |hs| - 1;
      var init := hs[..n];
      FoldHeadersKeys(init, key);
      if Names(init, key) {
        var i :| 0 <= i < |init| && Normalize(init[i].0) == key;
        assert hs[i] == init[i];
      }
      if Names(hs, key) && Normalize(hs[n].0) != key {
        var i :| 0 <= i < |hs| && Normalize(hs[i].0) == key;
        assert init[i] == hs[i];
      }
    }
  }

  /** Of several headers that normalise to the same key, the last one wins. */
  lemma {:induction false} FoldHeadersLastWins(hs: seq<Header>, key: string, i: int)
    requires IsLastWith(hs, key, i)
    ensures key in FoldHeaders(hs) && FoldHeaders(hs)[key] == hs[i].1
  {
    var n := |hs| - 1;
    if i != n {
      var init := hs[..n];
      forall j | i < j < n
        ensures Normalize(init[j].0) != key
      {
        assert init[j] == hs[j];
      }
      assert init[i] == hs[i];
      FoldHeadersLastWins(init, key, i);
    }
  }

  /** The entries of `META`: QUERY_STRING is always the query string, even when
      a header normalised to that key; every other key is a normalised header
      name and holds the value of the last such header. */
  lemma MetaOfEntries(hs: seq<Header>, qs: string, key: string, i: int)
    ensures QueryStringKey in MetaOf(hs, qs) && MetaOf(hs, qs)[QueryStringKey] == qs
    ensures key != QueryStringKey ==> (key in MetaOf(hs, qs) <==> Names(hs, key))
    ensures key != QueryStringKey && IsLastWith(hs, key, i) ==> MetaOf(hs, qs)[key] == hs[i].1
  {
    FoldHeadersKeys(hs, key);
    if key != QueryStringKey && IsLastWith(hs, key, i) {
      FoldHeadersLastWins(hs, key, i);
    }
  }

  /** `self.channels_scope` used as a mapping with `.get`. */
  function ChannelsScopeMapping(scope: map<string, Value>): (r: Result<map<string, Value>>)
    ensures GetAttr(scope, ChannelsScope).Err? ==> r == Err(GetAttr(scope, ChannelsScope).error)
    ensures GetAttr(scope, ChannelsScope).Ok? && GetAttr(scope, ChannelsScope).value.Dict? ==>
      r == Ok(GetAttr(scope, ChannelsScope).value.entries)
    ensures GetAttr(scope, ChannelsScope).Ok? && GetAttr(scope, ChannelsScope).value.ScopeRef? ==> r == Ok(scope)
    ensures (GetAttr(scope, ChannelsScope).Ok? && !GetAttr(scope, ChannelsScope).value.Dict?
             && !GetAttr(scope, ChannelsScope).value.ScopeRef?) ==> r == Err(WrongType)
  {
    var v :- GetAttr(scope, ChannelsScope);
    AsMapping(scope, v)
  }

  /** Iterating a scope value as `for key, value in ...` does: a header list
      yields its pairs; an empty string, byte string or mapping yields
      nothing; anything else fails on its first element. */
  function HeaderPairs(scope: map<string, Value>, v: Value): (r: Result<seq<Header>>)
    ensures v.HeaderList? ==> r == Ok(v.pairs)
    ensures r.Ok? && !v.HeaderList? ==> r.value == []
  {
    match v
    case HeaderList(pairs) => Ok(pairs)
    case Str(s) => if s == "" then Ok([]) else Err(WrongType)
    case Bytes(t) => if t == "" then Ok([]) else Err(WrongType)
    case Dict(d) => if d == map[] then Ok([]) else Err(WrongType)
    case ScopeRef => if scope == map[] then Ok([]) else Err(WrongType)
  }

  /** `channels_scope.get('headers', [])`, iterated. */
  function Headers(scope: map<string, Value>, cs: map<string, Value>): (r: Result<seq<Header>>)
    ensures HeadersKey !in cs ==> r == Ok([])
    ensures HeadersKey in cs && cs[HeadersKey].HeaderList? ==> r == Ok(cs[HeadersKey].pairs)
  {
    if HeadersKey in cs then HeaderPairs(scope, cs[HeadersKey]) else Ok([])
  }

  /** `channels_scope.get('query_string', b'').decode("utf-8")`: only a byte
      string can be decoded. */
  function RawQueryString(cs: map<string, Value>): (r: Result<string>)
    ensures RawQueryStringKey !in cs ==> r == Ok("")
    ensures RawQueryStringKey in cs ==> (r.Ok? <==> cs[RawQueryStringKey].Bytes?)
    ensures r.Ok? && RawQueryStringKey in cs ==> r.value == cs[RawQueryStringKey].text
  {
    if RawQueryStringKey in cs then
      match cs[RawQueryStringKey]
      case Bytes(t) => Ok(t)
      case _ => Err(WrongType)
    else Ok("")
  }

  /** Everything `build_meta` reads, in the order it reads it: the
      "channels_scope" mapping, its headers, its query string. */
  function MetaInput(scope: map<string, Value>): (r: Result<(seq<Header>, string)>)
    ensures ChannelsScopeMapping(scope).Err? ==> r == Err(ChannelsScopeMapping(scope).error)
    ensures ChannelsScopeMapping(scope).Ok? ==>
      var cs := ChannelsScopeMapping(scope).value;
      && (Headers(scope, cs).Err? ==> r == Err(Headers(scope, cs).error))
      && (Headers(scope, cs).Ok? && RawQueryString(cs).Err? ==> r == Err(RawQueryString(cs).error))
      && (Headers(scope, cs).Ok? && RawQueryString(cs).Ok? ==>
            r == Ok((Headers(scope, cs).value, RawQueryString(cs).value)))
  {
    var cs :- ChannelsScopeMapping(scope);
    var hs :- Headers(scope, cs);
    var qs :- RawQueryString(cs);
    Ok((hs, qs))
  }

  /** The scope as `build_meta` leaves it for the given headers and query
      string: only "META" changes, to the folded dictionary of strings. */
  function AfterBuildMeta(scope: map<string, Value>, hs: seq<Header>, qs: string): (after: map<string, Value>)
    ensures after.Keys == scope.Keys + {MetaAttr}
    ensures forall k :: k in scope && k != MetaAttr ==> after[k] == scope[k]
    ensures after[MetaAttr] == Dict(AsValues(MetaOf(hs, qs)))
  {
    scope[MetaAttr := Dict(AsValues(MetaOf(hs, qs)))]
  }
}
