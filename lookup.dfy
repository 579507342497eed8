/** Reading the wrapped scope: the attribute protocol of `DictAsObject`
    (`__getattr__`) and its dictionary protocol (`__getitem__`,
    `__contains__`), as functions of the current scope mapping. */
module Lookup {
  import opened Values

  /** The instance attribute that holds the wrapped mapping. */
  const ScopeAttr := "_scope"
  /** The key of the fallback mapping searched by attribute lookup. */
  const ChannelsScope := "channels_scope"

  /** Names starting with an underscore are never routed to the scope on read. */
  predicate IsPrivate(name: string) {
    |name| > 0 && name[0] == '_'
  }

  /** A scope value used as a mapping: a nested mapping, or the scope itself
      when the value aliases it; anything else supports no key access. */
  function AsMapping(scope: map<string, Value>, v: Value): (r: Result<map<string, Value>>)
    ensures r.Ok? <==> v.Dict? || v.ScopeRef?
    ensures v.Dict? ==> r == Ok(v.entries)
    ensures v.ScopeRef? ==> r == Ok(scope)
    ensures r.Err? ==> r.error == WrongType
  {
    match v
    case Dict(d) => Ok(d)
    case ScopeRef => Ok(scope)
    case _ => Err(WrongType)
  }

  /** The mapping attribute lookup falls back to: the one stored under
      "channels_scope", or nothing when there is no usable one. */
  function Fallback(scope: map<string, Value>): map<string, Value> {
    if ChannelsScope in scope && AsMapping(scope, scope[ChannelsScope]).Ok?
    then AsMapping(scope, scope[ChannelsScope]).value
    else map[]
  }

  /** `__getattr__`: the scope first, then the "channels_scope" mapping;
      private names always fail. */
  function GetAttr(scope: map<string, Value>, name: string): (r: Result<Value>)
    ensures IsPrivate(name) ==> r == Err(AttributeError)
    ensures !IsPrivate(name) && name in scope ==> r == Ok(scope[name])
    ensures r.Ok? <==> !IsPrivate(name) && (name in scope || name in Fallback(scope))
    ensures r.Ok? && name !in scope ==> r.value == Fallback(scope)[name]
    ensures r.Err? ==> r.error == AttributeError || r.error == WrongType
    ensures r == Err(WrongType) <==>
      && !IsPrivate(name) && name !in scope && ChannelsScope in scope
      && AsMapping(scope, scope[ChannelsScope]).Err?
  {
    if IsPrivate(name) then Err(AttributeError)
    else if name in scope then Ok(scope[name])
    else if ChannelsScope !in scope then Err(AttributeError)
    else match scope[ChannelsScope]
      case Dict(d) => if name in d then Ok(d[name]) else Err(AttributeError)
      // the fallback is the scope itself, which has just been searched
      case ScopeRef => Err(AttributeError)
      // indexing a string, byte string or list by a name is a type error
      case _ => Err(WrongType)
  }

  /** `__getitem__`. */
  function GetItem(scope: map<string, Value>, key: string): (r: Result<Value>)
    ensures r.Ok? <==> key in scope
    ensures r.Ok? ==> r.value == scope[key]
    ensures r.Err? ==> r.error == KeyError(key)
  {
    if key in scope then Ok(scope[key]) else Err(KeyError(key))
  }

  /** `__contains__`. */
  predicate Contains(scope: map<string, Value>, key: string)
    ensures Contains(scope, key) <==> GetItem(scope, key).Ok?
  {
    key in scope
  }

  /** A value stored under a public name is what attribute lookup returns; one
      stored under a private name is an item but never an attribute. */
  lemma StoreThenGetAttr(scope: map<string, Value>, key: string, value: Value)
    ensures !IsPrivate(key) ==> GetAttr(scope[key := value], key) == Ok(value)
    ensures IsPrivate(key) ==> GetAttr(scope[key := value], key) == Err(AttributeError)
  {
  }

  /** Once a key is deleted from the scope, attribute lookup finds it in the
      "channels_scope" mapping or not at all. */
  lemma DeleteThenGetAttr(scope: map<string, Value>, key: string)
    requires !IsPrivate(key)
    ensures GetAttr(scope - {key}, key).Ok? <==> key in Fallback(scope - {key})
    ensures key in Fallback(scope - {key}) ==>
      GetAttr(scope - {key}, key) == Ok(Fallback(scope - {key})[key])
  {
  }

  /** Attribute lookup depends on no key of the scope other than the name
      itself and "channels_scope". */
  lemma GetAttrFrame(a: map<string, Value>, b: map<string, Value>, name: string)
    requires name in a <==> name in b
    requires name in a ==> a[name] == b[name]
    requires ChannelsScope in a <==> ChannelsScope in b
    requires ChannelsScope in a ==> a[ChannelsScope] == b[ChannelsScope]
    ensures GetAttr(a, name) == GetAttr(b, name)
  {
  }
}
