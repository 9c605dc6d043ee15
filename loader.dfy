/**
 * The collectible load context of the definitions library: it resolves an
 * assembly name through an identity cache and then through an ordered list of
 * search paths (files and directories), verifying the loaded identity before
 * caching it under the requested name.
 *
 * The runtime and the file system are a fixed snapshot: which paths are files,
 * which are directories, and what the runtime finds when it opens a file.
 */
module Loader {
  import opened Wrappers
  import opened Text

  /** `AssemblyName`: the simple name and the full identity string. */
  datatype AssemblyName = AssemblyName(name: string, fullName: string)

  /** A loaded assembly; `location` is the file it came from and stands for object identity. */
  datatype Assembly = Assembly(identity: AssemblyName, location: string) {
    function FullName(): string { identity.fullName }
  }

  /** What the runtime finds when it opens a file as an assembly. */
  datatype Image = ValidImage(identity: AssemblyName) | LockedImage | MalformedImage | UnreadableImage

  /** The exceptions a load can raise. */
  datatype LoadError = FileLoadError | BadImageFormatError | FileNotFoundError | UnexpectedError

  /** A snapshot of the file system and of the images the runtime would read. */
  datatype FileSystem = FileSystem(files: set<string>, dirs: set<string>, images: map<string, Image>)

  /** The image stored at an existing file; a file without a recorded image is unreadable. */
  function ImageAt(fs: FileSystem, path: string): Image {
    if path in fs.images then fs.images[path] else UnreadableImage
  }

  /** The exception the runtime raises for an image it cannot load. */
  function ImageError(img: Image): LoadError {
    match img
    case LockedImage => FileLoadError
    case MalformedImage => BadImageFormatError
    case _ => UnexpectedError
  }

  /** `AssemblyLoadContext.LoadFromAssemblyPath` of the runtime itself. */
  function RuntimeLoad(fs: FileSystem, path: string): (r: Result<Assembly, LoadError>)
    ensures r.Success? <==> path in fs.files && ImageAt(fs, path).ValidImage?
    ensures r.Success? ==> r.value.location == path && r.value.identity == ImageAt(fs, path).identity
  {
    if path !in fs.files then Failure(FileNotFoundError)
    else match ImageAt(fs, path)
      case ValidImage(id) => Success(Assembly(id, path))
      case img => Failure(ImageError(img))
  }

  /** `AssemblyName.GetAssemblyName`: reads the identity stored in a file. */
  function ReadAssemblyName(fs: FileSystem, path: string): (r: Result<AssemblyName, LoadError>)
    ensures r.Success? <==> RuntimeLoad(fs, path).Success?
    ensures r.Success? ==> r.value == RuntimeLoad(fs, path).value.identity
  {
    if path !in fs.files then Failure(FileNotFoundError)
    else match ImageAt(fs, path)
      case ValidImage(id) => Success(id)
      case img => Failure(ImageError(img))
  }

  /** `Path.Combine(dir, file)` with '/' as separator. */
  function Combine(dir: string, file: string): string {
    if dir == [] then file
    else if dir[|dir| - 1] == '/' then dir + file
    else dir + "/" + file
  }

  /** `Path.GetFileNameWithoutExtension`: the last path segment without its last extension. */
  function FileNameWithoutExtension(path: string): string {
    var name := path[LastIndexOf(path, '/') + 1..];
    var dot := LastIndexOf(name, '.');
    if dot < 0 then name else name[..dot]
  }

  /**
   * The file one search path offers for a requested name: the path itself when
   * it is a file whose name matches, else `<name>.dll` and then `<name>.exe`
   * inside a directory path.
   */
  function Probe(fs: FileSystem, path: string, req: AssemblyName): (r: Option<string>)
    ensures r.Some? ==> r.value in fs.files
    ensures path in fs.files ==>
      (r.Some? <==> EqualsIgnoreCase(FileNameWithoutExtension(path), req.name)) && (r.Some? ==> r.value == path)
    ensures path !in fs.files && path in fs.dirs ==>
      if Combine(path, req.name + ".dll") in fs.files then r == Some(Combine(path, req.name + ".dll"))
      else if Combine(path, req.name + ".exe") in fs.files then r == Some(Combine(path, req.name + ".exe"))
      else r == None
    ensures path !in fs.files && path !in fs.dirs ==> r == None
  {
    if path in fs.files then
      if EqualsIgnoreCase(FileNameWithoutExtension(path), req.name) then Some(path) else None
    else if path in fs.dirs then
      var dll := Combine(path, req.name + ".dll");
      var exe := Combine(path, req.name + ".exe");
      if dll in fs.files then Some(dll) else if exe in fs.files then Some(exe) else None
    else None
  }

  /** The outcome of a load together with the cache it leaves behind. */
  datatype Loaded = Loaded(outcome: Result<Assembly, LoadError>, cache: map<string, Assembly>)

  /**
   * `LoadFromAssemblyPathInternal`: the cache is consulted under the hint's
   * full name; a fresh load is cached under the loaded assembly's own full
   * name (only when a hint was given); load errors are rethrown.
   */
  function LoadInternal(fs: FileSystem, cache: map<string, Assembly>, path: string, hint: Option<AssemblyName>): (l: Loaded)
    ensures hint.Some? && hint.value.fullName in cache ==> l == Loaded(Success(cache[hint.value.fullName]), cache)
    ensures l.outcome.Failure? ==> l.cache == cache && l.outcome == RuntimeLoad(fs, path)
    ensures l.outcome.Success? && hint.Some? ==> l.outcome.value in l.cache.Values
    ensures hint.None? ==> l.cache == cache && l.outcome == RuntimeLoad(fs, path)
    ensures hint.Some? && hint.value.fullName !in cache && RuntimeLoad(fs, path).Success? ==>
      var a := RuntimeLoad(fs, path).value;
      l == Loaded(Success(a), cache[a.FullName() := a])
    ensures forall k :: k in l.cache ==> (k in cache && l.cache[k] == cache[k]) || l.cache[k].FullName() == k
    ensures cache.Keys <= l.cache.Keys
  {
    if hint.Some? && hint.value.fullName in cache then Loaded(Success(cache[hint.value.fullName]), cache)
    else match RuntimeLoad(fs, path)
      case Success(a) =>
        var c := if hint.Some? then cache[a.FullName() := a] else cache;
        assert hint.Some? ==> c[a.FullName()] == a;
        Loaded(Success(a), c)
      case Failure(e) => Loaded(Failure(e), cache)
  }

  /** The public `LoadFromAssemblyPath`: read the identity from the file, then load with it as hint. */
  function LoadFromPath(fs: FileSystem, cache: map<string, Assembly>, path: string): (l: Loaded)
    ensures ReadAssemblyName(fs, path).Failure? ==> l == Loaded(Failure(ReadAssemblyName(fs, path).error), cache)
    ensures l.outcome.Success? ==> l.outcome.value in l.cache.Values
    ensures l.outcome.Success? ==> l.outcome.value.FullName() == ReadAssemblyName(fs, path).value.fullName ||
                                   ReadAssemblyName(fs, path).value.fullName in cache
  {
    match ReadAssemblyName(fs, path)
    case Failure(e) => Loaded(Failure(e), cache)
    case Success(name) => LoadInternal(fs, cache, path, Some(name))
  }

  /** Where the search stands: the assembly found (if any) and the cache. */
  datatype SearchState = SearchState(found: Option<Assembly>, cache: map<string, Assembly>)

  /** One iteration of the search loop over one configured path. */
  function Attempt(fs: FileSystem, cache: map<string, Assembly>, path: string, req: AssemblyName): SearchState {
    match Probe(fs, path, req)
    case None => SearchState(None, cache)
    case Some(candidate) =>
      var l := LoadInternal(fs, cache, candidate, Some(req));
      match l.outcome
      case Failure(_) => SearchState(None, l.cache)
      case Success(a) =>
        if EqualsIgnoreCase(a.FullName(), req.fullName) then SearchState(Some(a), l.cache[req.fullName := a])
        else SearchState(None, l.cache)
  }

  /** The search loop: paths in order, stopping at the first identity match. */
  function Search(fs: FileSystem, cache: map<string, Assembly>, paths: seq<string>, req: AssemblyName): SearchState
    decreases |paths|
  {
    if paths == [] then SearchState(None, cache)
    else
      var st := Attempt(fs, cache, paths[0], req);
      if st.found.Some? then st else Search(fs, st.cache, paths[1..], req)
  }

  /** The overridden `Load`: the identity cache first, then the search. */
  function LoadSpec(fs: FileSystem, cache: map<string, Assembly>, paths: seq<string>, req: AssemblyName): SearchState {
    if req.fullName in cache then SearchState(Some(cache[req.fullName]), cache)
    else Search(fs, cache, paths, req)
  }

  /** A path yields an identity-matching assembly, judged from the snapshot alone. */
  predicate Matches(fs: FileSystem, path: string, req: AssemblyName) {
    var c := Probe(fs, path, req);
    c.Some? && RuntimeLoad(fs, c.value).Success? &&
    EqualsIgnoreCase(RuntimeLoad(fs, c.value).value.FullName(), req.fullName)
  }

  /** The assembly a matching path yields. */
  function MatchedAssembly(fs: FileSystem, path: string, req: AssemblyName): Assembly
    requires Matches(fs, path, req)
  {
    RuntimeLoad(fs, Probe(fs, path, req).value).value
  }

  /** Reference definition of the search result: the first matching path's assembly, no cache involved. */
  function FirstMatch(fs: FileSystem, paths: seq<string>, req: AssemblyName): Option<Assembly>
    decreases |paths|
  {
    if paths == [] then None
    else if Matches(fs, paths[0], req) then Some(MatchedAssembly(fs, paths[0], req))
    else FirstMatch(fs, paths[1..], req)
  }

  /** A cache hit on the requested full name answers without looking at any path. */
  lemma CacheHitSkipsProbing(fs1: FileSystem, fs2: FileSystem, cache: map<string, Assembly>,
                             paths1: seq<string>, paths2: seq<string>, req: AssemblyName)
    requires req.fullName in cache
    ensures LoadSpec(fs1, cache, paths1, req) == LoadSpec(fs2, cache, paths2, req)
    ensures LoadSpec(fs1, cache, paths1, req) == SearchState(Some(cache[req.fullName]), cache)
  {
  }

  /** One attempt on a cache without the requested name behaves as the snapshot says. */
  lemma AttemptAgreesWithSnapshot(fs: FileSystem, cache: map<string, Assembly>, path: string, req: AssemblyName)
    requires req.fullName !in cache
    ensures var st := Attempt(fs, cache, path, req);
      (st.found.Some? <==> Matches(fs, path, req)) &&
      (st.found.Some? ==> st.found.value == MatchedAssembly(fs, path, req) && req.fullName in st.cache && st.cache[req.fullName] == st.found.value) &&
      (st.found.None? ==> req.fullName !in st.cache)
  {
    var c := Probe(fs, path, req);
    if c.Some? {
      var l := LoadInternal(fs, cache, c.value, Some(req));
      if l.outcome.Success? {
        var a := l.outcome.value;
        assert a == RuntimeLoad(fs, c.value).value;
        if !EqualsIgnoreCase(a.FullName(), req.fullName) {
          assert a.FullName() != req.fullName;
        }
      }
    }
  }

  /**
   * The search returns the assembly of the first path, in configured order,
   * whose candidate loads with a matching identity; on a miss nothing is
   * cached under the requested name.
   */
  lemma {:induction false} SearchFindsFirstMatch(fs: FileSystem, cache: map<string, Assembly>, paths: seq<string>, req: AssemblyName)
    requires req.fullName !in cache
    ensures var st := Search(fs, cache, paths, req);
      st.found == FirstMatch(fs, paths, req) &&
      (st.found.Some? ==> req.fullName in st.cache && st.cache[req.fullName] == st.found.value) &&
      (st.found.None? ==> req.fullName !in st.cache)
    decreases |paths|
  {
    if paths != [] {
      AttemptAgreesWithSnapshot(fs, cache, paths[0], req);
      var st := Attempt(fs, cache, paths[0], req);
      if st.found.None? {
        SearchFindsFirstMatch(fs, st.cache, paths[1..], req);
      }
    }
  }

  /** `FirstMatch` picks a matching path with no matching path before it, and misses only when none matches. */
  lemma {:induction false} FirstMatchIsFirst(fs: FileSystem, paths: seq<string>, req: AssemblyName)
    ensures FirstMatch(fs, paths, req).None? <==> forall i :: 0 <= i < |paths| ==> !Matches(fs, paths[i], req)
    ensures FirstMatch(fs, paths, req).Some? ==>
      exists i :: 0 <= i < |paths| && Matches(fs, paths[i], req) &&
        FirstMatch(fs, paths, req).value == MatchedAssembly(fs, paths[i], req) &&
        forall j :: 0 <= j < i ==> !Matches(fs, paths[j], req)
    decreases |paths|
  {
    if paths != [] {
      FirstMatchIsFirst(fs, paths[1..], req);
      if !Matches(fs, paths[0], req) {
        if FirstMatch(fs, paths, req).Some? {
          var i :| 0 <= i < |paths[1..]| && Matches(fs, paths[1..][i], req) &&
            FirstMatch(fs, paths[1..], req).value == MatchedAssembly(fs, paths[1..][i], req) &&
            forall j :: 0 <= j < i ==> !Matches(fs, paths[1..][j], req);
          assert forall j :: 0 <= j < i + 1 ==> !Matches(fs, paths[j], req) by {
            forall j | 0 <= j < i + 1 ensures !Matches(fs, paths[j], req) {
              if j > 0 { assert paths[j] == paths[1..][j - 1]; }
            }
          }
          assert paths[i + 1] == paths[1..][i];
        } else {
          forall i | 0 <= i < |paths| ensures !Matches(fs, paths[i], req) {
            if i > 0 { assert paths[i] == paths[1..][i - 1]; }
          }
        }
      }
    }
  }

  /**
   * Every cache entry the search adds or replaces maps the loaded assembly's
   * own full name to it, except the entry under the requested name; no entry
   * is ever dropped.
   */
  lemma {:induction false} SearchCachesUnderOwnNames(fs: FileSystem, cache: map<string, Assembly>, paths: seq<string>, req: AssemblyName)
    ensures var st := Search(fs, cache, paths, req);
      cache.Keys <= st.cache.Keys &&
      forall k :: k in st.cache ==> (k in cache && st.cache[k] == cache[k]) || st.cache[k].FullName() == k || k == req.fullName
    decreases |paths|
  {
    if paths != [] {
      var st := Attempt(fs, cache, paths[0], req);
      if st.found.None? {
        SearchCachesUnderOwnNames(fs, st.cache, paths[1..], req);
      }
    }
  }

  /** A candidate whose load throws is skipped: the search goes on with the next path and the same cache. */
  lemma FailedCandidateIsSkipped(fs: FileSystem, cache: map<string, Assembly>, paths: seq<string>, req: AssemblyName)
    requires paths != [] && req.fullName !in cache
    requires Probe(fs, paths[0], req).Some? && RuntimeLoad(fs, Probe(fs, paths[0], req).value).Failure?
    ensures Search(fs, cache, paths, req) == Search(fs, cache, paths[1..], req)
  {
  }

  /** An identity mismatch is not cached under the requested name, yet stays cached under its own name. */
  lemma MismatchCachedUnderOwnNameOnly(fs: FileSystem, cache: map<string, Assembly>, path: string, req: AssemblyName)
    requires req.fullName !in cache
    requires Probe(fs, path, req).Some? && RuntimeLoad(fs, Probe(fs, path, req).value).Success?
    requires !EqualsIgnoreCase(RuntimeLoad(fs, Probe(fs, path, req).value).value.FullName(), req.fullName)
    ensures var st := Attempt(fs, cache, path, req);
      var a := RuntimeLoad(fs, Probe(fs, path, req).value).value;
      st.found.None? && req.fullName !in st.cache && a.FullName() in st.cache && st.cache[a.FullName()] == a
  {
    var a := RuntimeLoad(fs, Probe(fs, path, req).value).value;
    assert a.FullName() != req.fullName;
  }

  /** A successful load is answered from the cache the next time: the same assembly, the cache unchanged. */
  lemma SecondLoadHitsCache(fs: FileSystem, cache: map<string, Assembly>, paths: seq<string>, req: AssemblyName)
    requires LoadSpec(fs, cache, paths, req).found.Some?
    ensures var first := LoadSpec(fs, cache, paths, req);
      LoadSpec(fs, first.cache, paths, req) == SearchState(first.found, first.cache)
  {
    if req.fullName !in cache {
      SearchFindsFirstMatch(fs, cache, paths, req);
    }
  }

  /** The load context: its configured search paths and its identity cache. */
  class DefinitionsLoadContext {
    const contextName: string
    const assemblyPaths: seq<string>
    var cache: map<string, Assembly>

    /** A missing (null) path array behaves as an empty one; the cache starts empty. */
    constructor (loadContextName: string, paths: Option<seq<string>>)
      ensures contextName == loadContextName
      ensures assemblyPaths == paths.GetOr([])
      ensures cache == map[]
    {
      contextName := loadContextName;
      assemblyPaths := paths.GetOr([]);
      cache := map[];
    }

    /** `LoadFromAssemblyPathInternal` on the context's own cache. */
    method LoadFromAssemblyPathInternal(fs: FileSystem, path: string, hint: Option<AssemblyName>) returns (r: Result<Assembly, LoadError>)
      modifies this
      ensures Loaded(r, cache) == LoadInternal(fs, old(cache), path, hint)
    {
      if hint.Some? && hint.value.fullName in cache {
        return Success(cache[hint.value.fullName]);
      }
      r := RuntimeLoad(fs, path);
      if r.Success? && hint.Some? {
        cache := cache[r.value.FullName() := r.value];
      }
    }

    /** The public `LoadFromAssemblyPath`: identity read from the file is the hint. */
    method LoadFromAssemblyPath(fs: FileSystem, path: string) returns (r: Result<Assembly, LoadError>)
      modifies this
      ensures Loaded(r, cache) == LoadFromPath(fs, old(cache), path)
    {
      var name := ReadAssemblyName(fs, path);
      if name.Failure? {
        return Failure(name.error);
      }
      r := LoadFromAssemblyPathInternal(fs, path, Some(name.value));
    }

    /** The overridden `Load`: cache, then the ordered path search; `None` when nothing matches. */
    method Load(fs: FileSystem, req: AssemblyName) returns (r: Option<Assembly>)
      modifies this
      ensures SearchState(r, cache) == LoadSpec(fs, old(cache), assemblyPaths, req)
    {
      if req.fullName in cache {
        return Some(cache[req.fullName]);
      }
      var i := 0;
      while i < |assemblyPaths|
        invariant 0 <= i <= |assemblyPaths|
        invariant Search(fs, old(cache), assemblyPaths, req) == Search(fs, cache, assemblyPaths[i..], req)
      {
        var path := assemblyPaths[i];
        var assemblyPath: Option<string> := None;
        if path in fs.files {
          if EqualsIgnoreCase(FileNameWithoutExtension(path), req.name) {
            assemblyPath := Some(path);
          }
        } else if path in fs.dirs {
          assemblyPath := Some(Combine(path, req.name + ".dll"));
          if assemblyPath.value !in fs.files {
            assemblyPath := Some(Combine(path, req.name + ".exe"));
            if assemblyPath.value !in fs.files {
              assemblyPath := None;
            }
          }
        }
        assert assemblyPath == Probe(fs, path, req);
        assert assemblyPaths[i..][0] == path && assemblyPaths[i..][1..] == assemblyPaths[i + 1..];
        if assemblyPath.Some? {
          var outcome := LoadFromAssemblyPathInternal(fs, assemblyPath.value, Some(req));
          if outcome.Success? && EqualsIgnoreCase(outcome.value.FullName(), req.fullName) {
            cache := cache[req.fullName := outcome.value];
            return Some(outcome.value);
          }
        }
        i := i + 1;
      }
      return None;
    }
  }
}
