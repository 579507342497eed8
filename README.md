# DictAsObject, modelled in Dafny

`channels_graphql_ws/dict_as_object.py` defines `DictAsObject`. This class wraps a
Channels connection scope, which is a mutable mapping. It lets callers use the scope
with attribute syntax and with item syntax. It also re-implements a few methods of
Django's `HttpRequest` on top of the scope:

- `build_meta` rebuilds a `META` dictionary from the raw header pairs.
- `get_host` and `_get_raw_host` choose the request host and check it against the allow-list.
- `get_full_path` and `build_absolute_uri` compose URLs.

The model has five modules:

- `Values` holds what a scope can contain. Text strings, byte strings, header lists and
  nested mappings are values. `ScopeRef` is an alias for the wrapped mapping itself.
  It also holds the exceptions and the `Result`/`Outcome` types that carry them.
- `Lookup` gives the read side of the wrapper as functions of the current scope map:
  `__getattr__` with its two-tier fallback, `__getitem__` and `__contains__`.
- `MetaDict` gives the rules of `build_meta`: how header names are normalised, how the
  headers are folded (the later one wins), and where the query string comes from.
- `Request` gives `_get_raw_host`, `get_host`, `is_secure`, `_current_scheme_host`,
  `_get_full_path`, `get_full_path` and `build_absolute_uri`, as functions of the
  current scope. Django's settings `DEBUG`, `ALLOWED_HOSTS` and `USE_X_FORWARDED_HOST`
  are passed in as a `Settings` value.
- `Wrapper` is the class `DictAsObject`. Its field `scope` is the mapping that `_scope`
  refers to. Its field `attrs` holds the other instance attributes. The constructor,
  `SetAttr`, `SetItem` and `DelItem` change the scope in place. `BuildMeta` runs the
  header loop and then stores the result through `SetAttr`.

Two source behaviours are kept exactly as written:

- `__setattr__` has no `else` after `object.__setattr__`. So a private (underscore)
  name is stored in the scope as well as on the instance.
- Because of that, construction stores the key `"_scope"` in the wrapped mapping, and
  that key refers to the mapping itself.

Library functions are not modelled; they are total function fields of a `Helpers`
value, so every property holds for every result they might return (but none of them
can raise). These are `escape_uri_path`,
`iri_to_uri`, `split_domain_port`, `validate_host`, `urlsplit`, `urljoin` and the
`%r` formatting used in the error message.

## Model

| member | source | states |
|---|---|---|
| `Lookup.GetAttr` | channels_graphql_ws/dict_as_object.py:43-53 | A private name always fails with AttributeError. A key of the scope is returned from the scope first. The lookup succeeds exactly when the name is in the scope or in the "channels_scope" mapping, and a fallback hit returns that mapping's value. A missing "channels_scope" gives AttributeError. A "channels_scope" that is not a mapping gives a type error. |
| `Lookup.GetItem` | channels_graphql_ws/dict_as_object.py:62-64 | `w[key]` succeeds exactly when the key is in the scope, and returns the stored value. Otherwise it raises KeyError for that key. |
| `Lookup.Contains` | channels_graphql_ws/dict_as_object.py:74-76 | `key in w` holds exactly when `w[key]` succeeds. |
| `Lookup.StoreThenGetAttr` | channels_graphql_ws/dict_as_object.py:43-53 | A value stored under a public name is what attribute lookup returns. A value stored under a private name is never returned by `__getattr__`. |
| `Lookup.DeleteThenGetAttr` | channels_graphql_ws/dict_as_object.py:47-53 | Once a public key is deleted from the scope, attribute lookup succeeds exactly when the fallback mapping has that key, and then returns the fallback's value. |
| `Lookup.GetAttrFrame` | channels_graphql_ws/dict_as_object.py:43-53 | Attribute lookup depends on no scope key other than the name itself and "channels_scope". |
| `Wrapper.DictAsObject.constructor` | channels_graphql_ws/dict_as_object.py:34-36 | The wrapper's scope is the given mapping plus the key "_scope", which refers to the mapping itself. Every other key is as given, and there are no other instance attributes. |
| `Wrapper.DictAsObject.ReadAttr` | channels_graphql_ws/dict_as_object.py:43-59 | `w._scope` is the wrapped mapping. A public name reads through `__getattr__`. Any other private name succeeds exactly when `__setattr__` stored it as an instance attribute. |
| `Wrapper.DictAsObject.SetAttr` | channels_graphql_ws/dict_as_object.py:55-59 | The scope gets the new value under the name, for private names too, and no other key changes. A private name also becomes an instance attribute. Afterwards both `w.name` and `w[name]` return the value. |
| `Wrapper.DictAsObject.SetItem` | channels_graphql_ws/dict_as_object.py:66-68 | The scope gets the value under the key, `w[key]` returns it, and no other key changes. |
| `Wrapper.DictAsObject.DelItem` | channels_graphql_ws/dict_as_object.py:70-72 | A present key is removed, and nothing else changes. An absent key raises KeyError and leaves the scope unchanged. |
| `Wrapper.DictAsObject.BuildMeta` | channels_graphql_ws/dict_as_object.py:89-95 | When the inputs can be read, the scope's only change is that "META" becomes the fold of the headers with QUERY_STRING set last. This is proved by the loop invariant `meta == FoldHeaders(hs[..i])`. When an input cannot be read, the error is raised and the scope is unchanged. |
| `MetaDict.Normalize` | channels_graphql_ws/dict_as_object.py:93 | A normalised header name has the same length as the original. Each hyphen becomes an underscore. Each lower-case ASCII letter becomes its upper-case letter (code point minus 32). Every other character is kept. |
| `MetaDict.NormalizeIdempotent` | channels_graphql_ws/dict_as_object.py:93 | Normalising a name that is already normalised changes nothing. |
| `MetaDict.FoldHeaders` | channels_graphql_ws/dict_as_object.py:91-93 | Every key of the folded dictionary is the normalised name of some header. The last header's normalised name is always a key, and holds that header's value. |
| `MetaDict.FoldHeadersKeys` | channels_graphql_ws/dict_as_object.py:91-93 | The keys of the folded dictionary are exactly the normalised names of the headers. |
| `MetaDict.FoldHeadersLastWins` | channels_graphql_ws/dict_as_object.py:91-93 | When several headers normalise to the same key, the key holds the value of the last of them. |
| `MetaDict.MetaOfEntries` | channels_graphql_ws/dict_as_object.py:91-95 | QUERY_STRING always holds the decoded query string, even when a header also normalised to it. Every other key is present exactly when some header normalises to it, and holds the last such header's value. |
| `MetaDict.MetaOf` | channels_graphql_ws/dict_as_object.py:91-95 | META always holds QUERY_STRING with the decoded query string. Its other keys are normalised header names. |
| `MetaDict.ChannelsScopeMapping` | channels_graphql_ws/dict_as_object.py:92 | `self.channels_scope` is read through attribute lookup, and its failure is raised unchanged. A nested mapping is returned as it is. The scope's self-reference gives the scope itself. Any other value fails with a type error, because it has no `.get`. |
| `MetaDict.HeaderPairs` | channels_graphql_ws/dict_as_object.py:92 | Iterating a header list yields its pairs. Any other value that iterates without error yields no headers. |
| `MetaDict.Headers` | channels_graphql_ws/dict_as_object.py:92 | A missing "headers" entry means no headers. A header list gives its pairs. |
| `MetaDict.RawQueryString` | channels_graphql_ws/dict_as_object.py:94 | A missing "query_string" gives the empty string. A byte string gives its decoding. Any other value fails, because only byte strings decode. |
| `MetaDict.MetaInput` | channels_graphql_ws/dict_as_object.py:92-94 | `build_meta` reads, in order, the "channels_scope" mapping, its headers and its query string. The first of these that fails gives the error. When none fails, the result is the header pairs and the decoded query string. |
| `MetaDict.AfterBuildMeta` | channels_graphql_ws/dict_as_object.py:95 | After `build_meta`, the scope has the same keys plus "META". Every other key keeps its value. "META" is the folded dictionary of strings. |
| `Request.CurrentMeta` | channels_graphql_ws/dict_as_object.py:145-146 | `self.META` is read through attribute lookup, and its failure is raised unchanged. A nested mapping is returned as it is. The scope's self-reference gives the scope itself. Any other value fails with a type error, because it has no `.get`. |
| `Request.RawHost` | channels_graphql_ws/dict_as_object.py:179-191 | A failure to read META propagates. For a mapping META, X_FORWARDED_HOST is preferred when USE_X_FORWARDED_HOST is set and the key is present. Otherwise HOST is used when present. Otherwise the host is "localhost". A header-list META never contains a string, so it gives "localhost". A string META is tested by substring, and indexing it after a hit is a type error. A byte-string META fails the `in` test with a type error. |
| `Request.ForwardedHostWins` | channels_graphql_ws/dict_as_object.py:186-187 | After `build_meta`, with USE_X_FORWARDED_HOST set, the raw host is the value of the last header that normalises to X_FORWARDED_HOST. |
| `Request.HostHeaderUsed` | channels_graphql_ws/dict_as_object.py:186-189 | After `build_meta`, when X_FORWARDED_HOST is disabled or was not sent, the raw host is the value of the last header that normalises to HOST. |
| `Request.LocalhostByDefault` | channels_graphql_ws/dict_as_object.py:186-191 | After `build_meta`, when neither header can be used, the raw host is "localhost". |
| `Request.AllowedHosts` | channels_graphql_ws/dict_as_object.py:161-164 | The allow-list is `[".localhost", "127.0.0.1", "[::1]"]` exactly when DEBUG is set and ALLOWED_HOSTS is empty. Otherwise it is ALLOWED_HOSTS. |
| `Request.IsSecure` | channels_graphql_ws/dict_as_object.py:150-151 | The connection counts as secure exactly when DEBUG is off. |
| `Request.GetHost` | channels_graphql_ws/dict_as_object.py:157-177 | On success the result is the raw host, unchanged, and it passes the allow-list check (non-empty domain and `validate_host`). A string raw host that passes always succeeds. One that fails raises DisallowedHost with the source's message. A failure to read the raw host propagates. |
| `Request.CurrentSchemeHost` | channels_graphql_ws/dict_as_object.py:150-155 | The value succeeds exactly when `get_host` does, and a failure of `get_host` is raised unchanged. On success it is exactly "http://" followed by the validated host when DEBUG is on, and "https://" followed by it when DEBUG is off. |
| `Request.MetaQueryString` | channels_graphql_ws/dict_as_object.py:145-146 | A failure to read META propagates. A META without QUERY_STRING gives the empty string. A string QUERY_STRING is returned as it is. Any other QUERY_STRING is a type error. |
| `Request.FullPath` | channels_graphql_ws/dict_as_object.py:139-148 | The full path fails exactly when the query string cannot be read, with the same error. On success it starts with the escaped path. |
| `Request.FullPathWithoutQuery` | channels_graphql_ws/dict_as_object.py:139-148 | With an empty query string, the full path is the escaped path. A "/" follows exactly when a slash is forced and the path does not end in one. |
| `Request.FullPathWithQuery` | channels_graphql_ws/dict_as_object.py:139-148 | With a non-empty query string, the full path starts with the escaped path and ends with "?" plus the converted query. Its length is the escaped path, plus one when a slash is forced and the path does not end in one, plus the "?" and the query. The character right after the escaped path is "/" in that case and "?" otherwise. |
| `Request.FullPathSlashIdempotent` | channels_graphql_ws/dict_as_object.py:139-148 | For a path that already ends in "/", forcing the slash changes nothing. The full path fails exactly when the query string cannot be read. |
| `Request.QueryStringAfterBuildMeta` | channels_graphql_ws/dict_as_object.py:89-148 | After `build_meta`, the query string used by the full path is the one decoded from the scope, whatever headers were sent. |
| `Request.PathValue` | channels_graphql_ws/dict_as_object.py:137 | `self.path` succeeds exactly when attribute lookup finds a string, and it returns that string. |
| `Request.GetFullPath` | channels_graphql_ws/dict_as_object.py:136-137 | `get_full_path` is `_get_full_path` of `self.path`. When `self.path` cannot be read, that error is raised. |
| `Request.AbsoluteLocationSkipsHost` | channels_graphql_ws/dict_as_object.py:113-134 | A location that has both a scheme and a host is only converted by `iri_to_uri`. The host is neither read nor validated. |
| `Request.RelativeLocationNeedsValidHost` | channels_graphql_ws/dict_as_object.py:113-133 | Any other location is completed only from a validated host. When `get_host` fails, `build_absolute_uri` fails with the same error. |
| `Request.FastPathPrefixesSchemeHost` | channels_graphql_ws/dict_as_object.py:118-128 | On the fast path (an absolute path with no scheme, no host and no "." or ".." segment), the location with a leading "//" removed is appended to the scheme and host. |
| `Request.BuildAbsoluteUri` | channels_graphql_ws/dict_as_object.py:97-134 | Without a location, a failure of `get_full_path` is raised unchanged. Any failure of `build_absolute_uri` is a failure of `get_full_path`, `get_host` or `self.path`, with the same error. |

## Left out

- `_asdict` (lines 38-40) returns the wrapped mapping. In the model that mapping is the `scope` field itself.
- `__str__` and `__repr__` (lines 78-84) are the dictionary's own formatting, which is not modelled.
- UTF-8 decoding (lines 93-94) is not modelled. Byte strings and header pairs are held as the text they decode to.
- Normalize: upper-casing covers ASCII letters only. Python's `str.upper` also maps non-ASCII letters, and can change a string's length.
- BuildAbsoluteUri: the helpers are total, so an exception raised inside `urlsplit` or `urljoin` (lines 113 and 133) is not modelled. For example, `urlsplit` raises ValueError for the location "//[x". The error list in its contract covers only the wrapper's own failures and those of `get_full_path`, `get_host` and `self.path`.
- The library functions on lines 23-28 and `urlsplit`/`urljoin` are parameters (`Request.Helpers`), so their internals are not modelled. Their URL parsing is reduced to the scheme, host and path of the split result.
- Django's global `settings` is a `Request.Settings` parameter, not global state.
- CurrentSchemeHost: `@cached_property` caching is not modelled. The model recomputes the value on every use, while the source keeps the first value even if META or the settings change later.
- SetAttr (`Wrapper.DictAsObject.SetAttr`): its precondition excludes assigning `_scope` after construction. That assignment rebinds the wrapper to another mapping (and, for a non-mapping, fails on the next line). The alias value `ScopeRef` cannot say which of two mappings it refers to.
- ReadAttr (`Wrapper.DictAsObject.ReadAttr`): covers data attributes only. Methods and properties of the class are found by ordinary lookup before `__getattr__` runs, even when the scope has a key of the same name.
- WrongType stands for every exception the source raises when a scope entry has an unusable Python type. That can be TypeError, ValueError, or AttributeError for a missing `.get`/`.decode`. The exact exception class is not modelled.
- GetHost: a raw host that is not a string is reported as WrongType. The source would pass it to `split_domain_port`.
- PathValue: a `self.path` that is not a string is reported as WrongType. The source passes it to `escape_uri_path` as it is (line 143). The source itself fails on it only at `path.endswith("/")` when a slash is forced (line 144), or when it is added to the scheme and host in `build_absolute_uri` (line 133).
- MetaQueryString: a QUERY_STRING that is not a string is reported as WrongType. The source skips such a value when it is falsy, and otherwise passes it to `iri_to_uri`.
- HeaderPairs: a header list is a sequence of pairs by type, so a malformed element inside a list cannot be expressed.
- Nested mappings are values in the model. A change made to a mapping obtained from the scope (for example to `w.channels_scope`) is not visible in the scope, whereas the source shares the object.
- `build_absolute_uri` coerces a lazy location with `str()` (line 112). The model takes locations as strings.
- Concurrency does not arise: the wrapper is used from one thread.
