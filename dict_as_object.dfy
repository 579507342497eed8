/** The wrapper object itself: it holds the scope mapping and changes it in
    place. What it reads is given by the functions of `Lookup`, `MetaDict`
    and `Request` applied to its current `scope`. */
module Wrapper {
  import opened Values
  import opened Lookup
  import opened MetaDict

  class DictAsObject {
    /** The mapping the `_scope` instance attribute refers to. */
    var scope: map<string, Value>
    /** The other instance attributes: the private names `__setattr__` also
        hands to `object.__setattr__`. */
    var attrs: map<string, Value>

    /** Only private names other than `_scope` become instance attributes. */
    ghost predicate Valid()
      reads this
    {
      forall name :: name in attrs ==> IsPrivate(name) && name != ScopeAttr
    }

    /** `__init__`: the assignment `self._scope = scope` goes through
        `__setattr__`, so the mapping also receives the key "_scope", which
        refers to the mapping itself. */
    constructor (s: map<string, Value>)
      ensures Valid()
      ensures scope == s[ScopeAttr := ScopeRef] && attrs == map[]
      ensures GetItem(scope, ScopeAttr) == Ok(ScopeRef)
      ensures forall k :: k != ScopeAttr ==> GetItem(scope, k) == GetItem(s, k)
    {
      scope := s[ScopeAttr := ScopeRef];
      attrs := map[];
    }

    /** Reading `w.name` for a data attribute: the instance attributes first,
        then `__getattr__`. */
    function ReadAttr(name: string): (r: Result<Value>)
      requires Valid()
      reads this
      ensures name == ScopeAttr ==> r == Ok(ScopeRef)
      ensures !IsPrivate(name) ==> r == GetAttr(scope, name)
      ensures IsPrivate(name) && name != ScopeAttr ==> (r.Ok? <==> name in attrs)
      ensures IsPrivate(name) && name in attrs ==> r == Ok(attrs[name])
    {
      if name == ScopeAttr then Ok(ScopeRef)
      else if name in attrs then Ok(attrs[name])
      else GetAttr(scope, name)
    }

    /** `__setattr__`: a private name also becomes an instance attribute,
        and every name, private or not, is stored in the scope. */
    method SetAttr(name: string, value: Value)
      requires Valid()
      requires name != ScopeAttr
      modifies this
      ensures Valid()
      ensures scope == old(scope)[name := value]
      ensures attrs == if IsPrivate(name) then old(attrs)[name := value] else old(attrs)
      ensures ReadAttr(name) == Ok(value)
      ensures GetItem(scope, name) == Ok(value)
      ensures forall k :: k != name ==> GetItem(scope, k) == GetItem(old(scope), k)
    {
      if IsPrivate(name) {
        attrs := attrs[name := value];
      }
      scope := scope[name := value];
    }

    /** `__setitem__`. */
    method SetItem(key: string, value: Value)
      requires Valid()
      modifies this`scope
      ensures Valid()
      ensures scope == old(scope)[key := value]
      ensures GetItem(scope, key) == Ok(value)
      ensures forall k :: k != key ==> GetItem(scope, k) == GetItem(old(scope), k)
    {
      scope := scope[key := value];
    }

    /** `__delitem__`: removes the key, or raises KeyError when it is absent. */
    method DelItem(key: string) returns (r: Outcome)
      requires Valid()
      modifies this`scope
      ensures Valid()
      ensures r == if Contains(old(scope), key) then Pass else Fail(KeyError(key))
      ensures scope == old(scope) - {key}
      ensures !Contains(scope, key)
      ensures forall k :: k != key ==> (Contains(scope, k) <==> Contains(old(scope), k))
    {
      if key in scope {
        scope := scope - {key};
        r := Pass;
      } else {
        r := Fail(KeyError(key));
      }
    }

    /** `build_meta`: folds the headers of "channels_scope" into a new
        dictionary with normalised keys, sets QUERY_STRING last, and assigns
        the result to `self.META`, that is, to the scope key "META". */
    method BuildMeta() returns (r: Outcome)
      requires Valid()
      modifies this
      ensures Valid() && attrs == old(attrs)
      ensures MetaInput(old(scope)).Err? ==>
        r == Fail(MetaInput(old(scope)).error) && scope == old(scope)
      ensures MetaInput(old(scope)).Ok? ==>
        var (hs, qs) := MetaInput(old(scope)).value;
        r == Pass && scope == AfterBuildMeta(old(scope), hs, qs)
    {
      var cs := ChannelsScopeMapping(scope);
      if cs.Err? {
        return Fail(cs.error);
      }
      var headers := Headers(scope, cs.value);
      if headers.Err? {
        return Fail(headers.error);
      }
      var hs := headers.value;
      var meta: map<string, string> := map[];
      var i := 0;
      while i < |hs|
        invariant 0 <= i <= |hs|
        invariant meta == FoldHeaders(hs[..i])
      {
        var (key, value) := hs[i];
        assert hs[..i + 1][..i] == hs[..i];
        meta := meta[Normalize(key) := value];
        i := i + 1;
      }
      assert hs[..i] == hs;
      var qs := RawQueryString(cs.value);
      if qs.Err? {
        return Fail(qs.error);
      }
      meta := meta[QueryStringKey := qs.value];
      SetAttr(MetaAttr, Dict(AsValues(meta)));
      r := Pass;
    }
  }
}
