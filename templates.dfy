/**
 * The configuration-backed template provider: a template is read from
 * `"<root>:<scope>:<key>"`, its `{word}` placeholders are counted, and either
 * the count is enforced against the arguments or the arguments are padded
 * with empty strings. Templates that resolved are cached per
 * (scope, key, culture name); a cache hit formats without reading
 * configuration and without the placeholder check.
 *
 * Formatting is kept symbolic: the result records the culture, the template
 * and the argument list handed to `string.Format`.
 */
module Templates {
  import opened Wrappers

  /** A culture, known by its name. */
  datatype Culture = Culture(name: string)

  /** A formatting argument: a string, some other object known by identity, or null. */
  datatype Arg = Text(s: string) | Object(id: nat) | NullArg

  /** What `string.Format(culture, template, args)` is asked to produce. */
  datatype Formatted = Formatted(culture: Culture, template: string, args: seq<Arg>)

  /** A word character of the pattern `\w`: ASCII letters, digits and the underscore. */
  predicate IsWordChar(c: char) {
    ('a' <= c <= 'z') || ('A' <= c <= 'Z') || ('0' <= c <= '9') || c == '_'
  }

  /** The end of the run of word characters starting at `j`. */
  function WordRunEnd(s: string, j: nat): (e: nat)
    requires j <= |s|
    ensures j <= e <= |s|
    ensures forall k :: j <= k < e ==> IsWordChar(s[k])
    ensures e < |s| ==> !IsWordChar(s[e])
    decreases |s| - j
  {
    if j == |s| || !IsWordChar(s[j]) then j else WordRunEnd(s, j + 1)
  }

  /** The pattern `\{(\w+)\}` matches at position `i`. */
  predicate PlaceholderAt(s: string, i: nat) {
    i < |s| && s[i] == '{' &&
    var e := WordRunEnd(s, i + 1);
    e > i + 1 && e < |s| && s[e] == '}'
  }

  /** The number of positions at or after `k` where a placeholder starts. */
  function PlaceholdersFrom(s: string, k: nat): nat
    requires k <= |s|
    decreases |s| - k
  {
    if k == |s| then 0 else (if PlaceholderAt(s, k) then 1 else 0) + PlaceholdersFrom(s, k + 1)
  }

  /** The placeholder count of a template: every position where the pattern matches. */
  function PlaceholderCount(s: string): nat {
    PlaceholdersFrom(s, 0)
  }

  /** A stretch without `{` holds no placeholder start. */
  lemma {:induction false} NoOpenerNoPlaceholder(s: string, a: nat, b: nat)
    requires a <= b <= |s|
    requires forall j :: a <= j < b ==> s[j] != '{'
    ensures PlaceholdersFrom(s, a) == PlaceholdersFrom(s, b)
    decreases b - a
  {
    if a < b {
      NoOpenerNoPlaceholder(s, a + 1, b);
    }
  }

  /**
   * `Regex.Matches` with `\{(\w+)\}`: a left-to-right scan that resumes after
   * each match. Matches cannot overlap, so the scan counts exactly the
   * positions where the pattern matches.
   */
  method CountPlaceholders(s: string) returns (n: nat)
    ensures n == PlaceholderCount(s)
  {
    n := 0;
    var i := 0;
    while i < |s|
      invariant 0 <= i <= |s|
      invariant n + PlaceholdersFrom(s, i) == PlaceholderCount(s)
      decreases |s| - i
    {
      if PlaceholderAt(s, i) {
        var e := WordRunEnd(s, i + 1);
        NoOpenerNoPlaceholder(s, i + 1, e + 1);
        n := n + 1;
        i := e + 1;
      } else {
        i := i + 1;
      }
    }
  }

  /** A format item with a format string, such as `{0:N2}`, is not a placeholder. */
  lemma FormatSpecifierNotCounted()
    ensures PlaceholderCount("Value: {0:N2}") == 0
  {
    var v := "Value: {0:N2}";
    assert WordRunEnd(v, 8) == 9 by {
      assert IsWordChar(v[8]) && !IsWordChar(v[9]);
    }
    assert !PlaceholderAt(v, 7);
    forall j | 0 <= j < |v| && j != 7 ensures v[j] != '{' { }
    NoOpenerNoPlaceholder(v, 0, 7);
    NoOpenerNoPlaceholder(v, 8, |v|);
  }

  /** Plain format items such as `{0}` and `{1}` are each counted once. */
  lemma PlainItemsCounted()
    ensures PlaceholderCount("Hello, {0} {1}!") == 2
  {
    var h := "Hello, {0} {1}!";
    assert WordRunEnd(h, 8) == 9 by {
      assert IsWordChar(h[8]) && !IsWordChar(h[9]);
    }
    assert WordRunEnd(h, 12) == 13 by {
      assert IsWordChar(h[12]) && !IsWordChar(h[13]);
    }
    assert PlaceholderAt(h, 7) && PlaceholderAt(h, 11);
    NoOpenerNoPlaceholder(h, 0, 7);
    NoOpenerNoPlaceholder(h, 8, 11);
    NoOpenerNoPlaceholder(h, 12, |h|);
  }

  /**
   * The argument list padded with empty strings up to `count`: a new array of
   * nulls receives the arguments, then its remaining slots get empty strings.
   */
  method PadArguments(args: seq<Arg>, count: nat) returns (padded: seq<Arg>)
    requires count > |args|
    ensures |padded| == count
    ensures padded[..|args|] == args
    ensures forall i :: |args| <= i < count ==> padded[i] == Text("")
  {
    var extended := new Arg[count](_ => NullArg);
    var k := 0;
    while k < |args|
      invariant 0 <= k <= |args|
      invariant forall j :: 0 <= j < k ==> extended[j] == args[j]
      invariant forall j :: k <= j < count ==> extended[j] == NullArg
    {
      extended[k] := args[k];
      k := k + 1;
    }
    var i := |args|;
    while i < count
      invariant |args| <= i <= count
      invariant forall j :: 0 <= j < |args| ==> extended[j] == args[j]
      invariant forall j :: |args| <= j < i ==> extended[j] == Text("")
      invariant forall j :: i <= j < count ==> extended[j] == NullArg
    {
      extended[i] := Text("");
      i := i + 1;
    }
    padded := extended[..];
  }

  /** The value-level description of padding. */
  function Padded(args: seq<Arg>, count: nat): seq<Arg> {
    if count > |args| then args + seq(count - |args|, _ => Text("")) else args
  }

  /** The cache key: scope, key and culture name. */
  type CacheKey = (string, string, string)

  /** The outcome of one resolution: success flag, the formatted value (null on failure), the cache after. */
  datatype Resolution = Resolution(found: bool, value: Option<Formatted>, cache: map<CacheKey, Option<string>>)

  /** The configuration path of a template. */
  function ConfigPath(root: string, scope: string, key: string): string {
    root + ":" + scope + ":" + key
  }

  /** `TryResolveInternal` as a function of the configuration contents and the cache. */
  function TryResolveSpec(configuration: map<string, string>, root: string, enforce: bool, cache: map<CacheKey, Option<string>>,
                          scope: string, key: string, culture: Culture, args: seq<Arg>): Resolution
  {
    var cacheKey := (scope, key, culture.name);
    if cacheKey in cache then
      match cache[cacheKey]
      case Some(t) => Resolution(true, Some(Formatted(culture, t, args)), cache)
      case None => Resolution(false, None, cache)
    else
      var path := ConfigPath(root, scope, key);
      if path !in configuration then Resolution(false, None, cache)
      else
        var template := configuration[path];
        var count := PlaceholderCount(template);
        if enforce && count > |args| then Resolution(false, None, cache)
        else Resolution(true, Some(Formatted(culture, template, Padded(args, count))), cache[cacheKey := Some(template)])
  }

  /** A missing template: false, no value, nothing cached. */
  lemma MissingTemplateNotFound(configuration: map<string, string>, root: string, enforce: bool, cache: map<CacheKey, Option<string>>,
                                scope: string, key: string, culture: Culture, args: seq<Arg>)
    requires (scope, key, culture.name) !in cache && ConfigPath(root, scope, key) !in configuration
    ensures TryResolveSpec(configuration, root, enforce, cache, scope, key, culture, args) == Resolution(false, None, cache)
  {
  }

  /** With enforcement, more placeholders than arguments fails and caches nothing; within the count the arguments pass unchanged. */
  lemma EnforcedPlaceholderCount(configuration: map<string, string>, root: string, cache: map<CacheKey, Option<string>>,
                                 scope: string, key: string, culture: Culture, args: seq<Arg>)
    requires (scope, key, culture.name) !in cache && ConfigPath(root, scope, key) in configuration
    ensures var template := configuration[ConfigPath(root, scope, key)];
      var r := TryResolveSpec(configuration, root, true, cache, scope, key, culture, args);
      (r.found <==> PlaceholderCount(template) <= |args|) &&
      (!r.found ==> r == Resolution(false, None, cache)) &&
      (r.found ==> r.value == Some(Formatted(culture, template, args)))
  {
  }

  /** Without enforcement the template always resolves, with the arguments padded to the placeholder count. */
  lemma PaddedWhenNotEnforced(configuration: map<string, string>, root: string, cache: map<CacheKey, Option<string>>,
                              scope: string, key: string, culture: Culture, args: seq<Arg>)
    requires (scope, key, culture.name) !in cache && ConfigPath(root, scope, key) in configuration
    ensures var template := configuration[ConfigPath(root, scope, key)];
      var r := TryResolveSpec(configuration, root, false, cache, scope, key, culture, args);
      var n := PlaceholderCount(template);
      r.found && r.value.Some? && r.value.value.template == template &&
      |r.value.value.args| == (if n > |args| then n else |args|) &&
      r.value.value.args[..|args|] == args &&
      (forall i :: |args| <= i < |r.value.value.args| ==> r.value.value.args[i] == Text("")) &&
      r.cache == cache[(scope, key, culture.name) := Some(template)]
  {
  }

  /**
   * A cached template answers on its own: the configuration is not read and
   * the placeholder count is not checked, so the first template cached under
   * a key keeps winning whatever the configuration says later.
   */
  lemma CacheHitIgnoresConfiguration(c1: map<string, string>, c2: map<string, string>, root1: string, root2: string,
                                     enforce1: bool, enforce2: bool, cache: map<CacheKey, Option<string>>,
                                     scope: string, key: string, culture: Culture, args: seq<Arg>)
    requires (scope, key, culture.name) in cache && cache[(scope, key, culture.name)].Some?
    ensures TryResolveSpec(c1, root1, enforce1, cache, scope, key, culture, args) ==
            TryResolveSpec(c2, root2, enforce2, cache, scope, key, culture, args)
    ensures TryResolveSpec(c1, root1, enforce1, cache, scope, key, culture, args) ==
            Resolution(true, Some(Formatted(culture, cache[(scope, key, culture.name)].value, args)), cache)
  {
  }

  /** Only resolved templates are cached, and the cache only grows. */
  lemma CacheHoldsOnlyTemplates(configuration: map<string, string>, root: string, enforce: bool, cache: map<CacheKey, Option<string>>,
                                scope: string, key: string, culture: Culture, args: seq<Arg>)
    requires forall k :: k in cache ==> cache[k].Some?
    ensures var r := TryResolveSpec(configuration, root, enforce, cache, scope, key, culture, args);
      cache.Keys <= r.cache.Keys && (forall k :: k in cache ==> r.cache[k] == cache[k]) &&
      (forall k :: k in r.cache ==> r.cache[k].Some?) &&
      (r.found <==> r.value.Some?)
  {
  }

  /** A second resolution of the same key and culture is served from the cache with the first call's template. */
  lemma SecondResolutionUsesCache(configuration: map<string, string>, root: string, enforce: bool, cache: map<CacheKey, Option<string>>,
                                  scope: string, key: string, culture: Culture, args1: seq<Arg>, args2: seq<Arg>)
    requires forall k :: k in cache ==> cache[k].Some?
    requires TryResolveSpec(configuration, root, enforce, cache, scope, key, culture, args1).found
    ensures var first := TryResolveSpec(configuration, root, enforce, cache, scope, key, culture, args1);
      var second := TryResolveSpec(map[], root, enforce, first.cache, scope, key, culture, args2);
      second.found && second.cache == first.cache &&
      second.value.value.template == first.value.value.template && second.value.value.args == args2
  {
  }

  /** Why a resolution threw. */
  datatype ResolveError = KeyNotFound(scope: string, key: string, cultureName: string)

  /** `ConfigurationTemplateProvider`: a read-only view of configuration and a growing template cache. */
  class ConfigurationTemplateProvider {
    const configuration: map<string, string>
    const rootConfigKey: string
    const enforcePlaceholderCount: bool
    var cache: map<CacheKey, Option<string>>

    /** Explicit root key and enforcement flag; the cache starts empty. */
    constructor (configuration: map<string, string>, rootConfigKey: string, enforcePlaceholderCount: bool)
      ensures this.configuration == configuration && this.rootConfigKey == rootConfigKey
      ensures this.enforcePlaceholderCount == enforcePlaceholderCount && cache == map[]
    {
      this.configuration := configuration;
      this.rootConfigKey := rootConfigKey;
      this.enforcePlaceholderCount := enforcePlaceholderCount;
      cache := map[];
    }

    /** The optional parameters left out: root `"Manifest"`, enforcement on. */
    constructor WithDefaults(configuration: map<string, string>)
      ensures this.configuration == configuration && rootConfigKey == "Manifest"
      ensures enforcePlaceholderCount && cache == map[]
    {
      this.configuration := configuration;
      rootConfigKey := "Manifest";
      enforcePlaceholderCount := true;
      cache := map[];
    }

    method TryResolveInternal(scope: string, key: string, culture: Culture, args: seq<Arg>) returns (found: bool, value: Option<Formatted>)
      modifies this
      ensures Resolution(found, value, cache) ==
              TryResolveSpec(configuration, rootConfigKey, enforcePlaceholderCount, old(cache), scope, key, culture, args)
    {
      var cacheKey := (scope, key, culture.name);
      if cacheKey in cache {
        var cachedTemplate := cache[cacheKey];
        if cachedTemplate.Some? {
          return true, Some(Formatted(culture, cachedTemplate.value, args));
        }
        return false, None;
      }
      var configPath := ConfigPath(rootConfigKey, scope, key);
      if configPath !in configuration {
        return false, None;
      }
      var template := configuration[configPath];
      var placeholders := CountPlaceholders(template);
      if enforcePlaceholderCount && placeholders > |args| {
        return false, None;
      }
      var formatArgs := args;
      if !enforcePlaceholderCount && placeholders > |args| {
        formatArgs := PadArguments(args, placeholders);
        assert formatArgs == Padded(args, placeholders);
      }
      value := Some(Formatted(culture, template, formatArgs));
      if cacheKey !in cache {
        cache := cache[cacheKey := Some(template)];
      }
      found := true;
    }

    /** `TryResolve`: a null culture means the current culture. */
    method TryResolve(scope: string, key: string, culture: Option<Culture>, currentCulture: Culture, args: seq<Arg>)
      returns (found: bool, value: Option<Formatted>)
      modifies this
      ensures Resolution(found, value, cache) ==
              TryResolveSpec(configuration, rootConfigKey, enforcePlaceholderCount, old(cache), scope, key, culture.GetOr(currentCulture), args)
    {
      found, value := TryResolveInternal(scope, key, culture.GetOr(currentCulture), args);
    }

    /** `Resolve`: an unresolved template throws `KeyNotFoundException`. */
    method Resolve(scope: string, key: string, culture: Culture, args: seq<Arg>) returns (r: Result<Formatted, ResolveError>)
      modifies this
      ensures var spec := TryResolveSpec(configuration, rootConfigKey, enforcePlaceholderCount, old(cache), scope, key, culture, args);
        cache == spec.cache &&
        (if spec.found then r == Success(spec.value.value) else r == Failure(KeyNotFound(scope, key, culture.name)))
    {
      var found, value := TryResolveInternal(scope, key, culture, args);
      if found {
        return Success(value.value);
      }
      return Failure(KeyNotFound(scope, key, culture.name));
    }

    /** `Resolve` without a culture: the current culture. */
    method ResolveCurrent(scope: string, key: string, currentCulture: Culture, args: seq<Arg>) returns (r: Result<Formatted, ResolveError>)
      modifies this
      ensures var spec := TryResolveSpec(configuration, rootConfigKey, enforcePlaceholderCount, old(cache), scope, key, currentCulture, args);
        cache == spec.cache &&
        (if spec.found then r == Success(spec.value.value) else r == Failure(KeyNotFound(scope, key, currentCulture.name)))
    {
      r := Resolve(scope, key, currentCulture, args);
    }
  }
}
