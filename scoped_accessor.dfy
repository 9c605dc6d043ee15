/**
 * The enum-scoped template accessor: the scope name is the enum type's name,
 * every accessor validates the enum key (and, in the culture overload, the
 * culture) and then forwards one call to the localized value provider.
 *
 * The provider is an interface, so each accessor is modelled by the call it
 * forwards (or the exception it throws first); what a configuration-backed
 * provider answers to that call is stated by `Templates`.
 */
module ScopedAccessor {
  import opened Wrappers
  import opened Templates

  /** An enum type: its name and its defined members (numeric value to member name). */
  datatype EnumType = EnumType(name: string, members: map<int, string>)

  /** A localized value provider, known by identity. */
  datatype ProviderRef = ProviderRef(id: nat)

  /** A constructed accessor: its provider, its enum type and the scope name taken from it. */
  datatype Accessor = Accessor(provider: ProviderRef, scope: EnumType, scopeName: string)

  /** The argument exceptions an accessor throws. */
  datatype AccessorError = ArgumentNull(paramName: string) | ArgumentInvalid(paramName: string, value: int)

  /** The provider call an accessor forwards. */
  datatype ProviderCall =
    | ResolveCall(scope: string, key: string, args: seq<Arg>)
    | ResolveInCultureCall(scope: string, key: string, culture: Culture, args: seq<Arg>)
    | TryResolveCall(scope: string, key: string, requestedCulture: Option<Culture>, args: seq<Arg>)

  /** The constructor: a null provider throws; the scope name is the enum type's name. */
  function Create(scope: EnumType, provider: Option<ProviderRef>): (r: Result<Accessor, AccessorError>)
    ensures r.Failure? <==> provider.None?
    ensures r.Failure? ==> r.error == ArgumentNull("localizedValueProvider")
    ensures r.Success? ==> r.value.scopeName == scope.name && r.value.provider == provider.value && r.value.scope == scope
  {
    match provider
    case None => Failure(ArgumentNull("localizedValueProvider"))
    case Some(p) => Success(Accessor(p, scope, scope.name))
  }

  /** `Enum.IsDefined`. */
  predicate IsDefined(e: EnumType, value: int) {
    value in e.members
  }

  /** `GetValue(key, args)`: forwards `Resolve(scopeName, keyName, args)`. */
  function GetValue(a: Accessor, key: int, args: Option<seq<Arg>>): (r: Result<ProviderCall, AccessorError>)
    ensures r.Failure? <==> !IsDefined(a.scope, key)
    ensures r.Failure? ==> r.error == ArgumentInvalid("key", key)
    ensures r.Success? ==> r.value == ResolveCall(a.scopeName, a.scope.members[key], args.GetOr([]))
  {
    if !IsDefined(a.scope, key) then Failure(ArgumentInvalid("key", key))
    else Success(ResolveCall(a.scopeName, a.scope.members[key], args.GetOr([])))
  }

  /** `GetValue(key, culture, args)`: the key is checked before the culture. */
  function GetValueInCulture(a: Accessor, key: int, culture: Option<Culture>, args: Option<seq<Arg>>): (r: Result<ProviderCall, AccessorError>)
    ensures !IsDefined(a.scope, key) ==> r == Failure(ArgumentInvalid("key", key))
    ensures IsDefined(a.scope, key) && culture.None? ==> r == Failure(ArgumentNull("culture"))
    ensures r.Success? <==> IsDefined(a.scope, key) && culture.Some?
    ensures r.Success? ==> r.value == ResolveInCultureCall(a.scopeName, a.scope.members[key], culture.value, args.GetOr([]))
  {
    if !IsDefined(a.scope, key) then Failure(ArgumentInvalid("key", key))
    else if culture.None? then Failure(ArgumentNull("culture"))
    else Success(ResolveInCultureCall(a.scopeName, a.scope.members[key], culture.value, args.GetOr([])))
  }

  /** `TryGetValue(key, out value, culture, args)`: a null culture is passed on as is. */
  function TryGetValue(a: Accessor, key: int, culture: Option<Culture>, args: Option<seq<Arg>>): (r: Result<ProviderCall, AccessorError>)
    ensures r.Failure? <==> !IsDefined(a.scope, key)
    ensures r.Failure? ==> r.error == ArgumentInvalid("key", key)
    ensures r.Success? ==> r.value == TryResolveCall(a.scopeName, a.scope.members[key], culture, args.GetOr([]))
  {
    if !IsDefined(a.scope, key) then Failure(ArgumentInvalid("key", key))
    else Success(TryResolveCall(a.scopeName, a.scope.members[key], culture, args.GetOr([])))
  }

  /** An undefined key is rejected by every accessor before anything else is looked at. */
  lemma UndefinedKeyRejectedFirst(a: Accessor, key: int, culture: Option<Culture>, args: Option<seq<Arg>>)
    requires !IsDefined(a.scope, key)
    ensures GetValue(a, key, args) == GetValueInCulture(a, key, culture, args) == TryGetValue(a, key, culture, args)
    ensures GetValue(a, key, args) == Failure(ArgumentInvalid("key", key))
  {
  }

  /** A null argument array is the same as an empty one. */
  lemma NullArgumentsAreEmpty(a: Accessor, key: int, culture: Option<Culture>)
    ensures GetValue(a, key, None) == GetValue(a, key, Some([]))
    ensures GetValueInCulture(a, key, culture, None) == GetValueInCulture(a, key, culture, Some([]))
    ensures TryGetValue(a, key, culture, None) == TryGetValue(a, key, culture, Some([]))
  {
  }

  /**
   * Over a configuration-backed provider, `TryGetValue` answers exactly what
   * the provider's `TryResolve` answers for the enum's scope and member name,
   * with a null culture replaced by the current one.
   */
  lemma TryGetValueIsProviderAnswer(a: Accessor, key: int, culture: Option<Culture>, args: Option<seq<Arg>>,
                                    configuration: map<string, string>, root: string, enforce: bool,
                                    cache: map<CacheKey, Option<string>>, current: Culture)
    requires IsDefined(a.scope, key) && a == Create(a.scope, Some(a.provider)).value
    ensures var call := TryGetValue(a, key, culture, args).value;
      TryResolveSpec(configuration, root, enforce, cache, call.scope, call.key, call.requestedCulture.GetOr(current), call.args) ==
      TryResolveSpec(configuration, root, enforce, cache, a.scope.name, a.scope.members[key], culture.GetOr(current), args.GetOr([]))
  {
  }
}
