# Zentient definitions, manifest templates and results — a Dafny model

This project models the core of the Zentient libraries:

- **Definitions** (`Zentient.Definitions`). `AddDefinitions` registers the library's own services and layers the configuration. It then walks the configured assembly paths. Each assembly is loaded through an isolated `DefinitionsLoadContext`, and every `IDefinitionModule` it declares is registered. The model covers:
  - the critical-module rule;
  - the "last registration wins" conflict rule, with its process-wide tracking table;
  - the module-loaded callback;
  - the options builder;
  - the in-memory configuration source that flattens per-module overrides.
- **Manifest templates**.
  - `ConfigurationTemplateProvider` resolves a template from configuration under `Root:Scope:Key`. It counts `{word}` placeholders (`\{(\w+)\}`) and then either rejects too few arguments or pads them. It caches resolved templates per scope, key and culture.
  - `ScopedTemplateAccessor` validates an enum key before delegating to the provider.
- **Results**.
  - The JSON converter for `IResult` and `IResult<T>`: writing tokens and reading them back.
  - The mapping of a failed result to RFC 7807 problem details, including its validation branch and its `zentientErrors` extension.
  - The conversions of a result to MVC action results.
  - The two problem-details result filters and the minimal-API endpoint filter.

Reflection, the file system and the dependency-injection container are replaced by inputs:
- a file-system snapshot;
- each directory's `*.dll` listing;
- a catalog of each assembly's module types;
- a flag saying whether logging services are registered.

What a module's `ConfigureServices` does is part of that module's description. Exceptions become `Result`/`Option` values or a returned error. Objects the source mutates in place become classes with `modifies` clauses:
- the load context and its cache;
- the options and their builder;
- the registrar that holds the service list and the tracking table;
- the template provider and its cache;
- the JSON writer;
- the model-error dictionary;
- the result-executing context.

Each such class's methods are proved against a function of the old state. The properties are proved as lemmas about those functions.

Where the code, its documentation and its tests disagree, the model follows the code:

- A critical module whose configuration throws does not fail `AddDefinitions`. The rethrow at `ServiceCollectionExtensions.cs:141-145` is caught by the catch-all at 195-198. Only the rest of that assembly's modules is skipped (`Registration.CriticalFailureSkipsRest`). The test at `Tests/Definitions/ServiceCollectionTests.cs:65-82` expects a `DefinitionLoadException` instead.
- A module type that cannot be instantiated also ends its assembly's loop through the same catch-all.
- A conflict is resolved against the *first* tracked descriptor only. A third registration of the same service type therefore removes nothing (`Registration.ThirdRegistrationRemovesNothing`).
- The asynchronous result filter turns a non-generic 204 success into a bare `StatusCodeResult(204)` (`AsyncResultFilter.SuccessConversion`). The test at `Tests/Results/AspNetCore/Filters/ProblemDetailsResultFilterTests.cs:224` expects a `NoContentResult`.
- The status-code tables of `ResultExtensions` and `ProblemDetailsExtensions` disagree on nine categories (`ActionResults.StatusTablesDiffer`).
- The JSON reader skips an unknown property with a single `Read`. When that property's value is an object, the object's own properties are read as top-level ones, and the object's end ends the read (`ResultJson.NestedObjectQuirk`). This is what the converter's own `Read` returns. A caller going through `JsonSerializer.Deserialize` gets a `JsonException` instead, because the serializer checks afterwards that the converter stopped on the matching end of the object; that check is not modelled.
- The endpoint filter fails with `InvalidOperationException` when no problem-details factory is registered, even for a successful result.
- The documentation at `ProblemDetailsOptions.cs:45-50` says the custom problem factory is used only when `MapValidationErrors` is off or there are no validation errors. The MVC filter calls it whenever it is set (`ProblemDetailsResultFilter.cs:48`), before any validation mapping (`MvcResultFilter.CustomFactoryWins`).

## Model

| member | source | states |
|---|---|---|
| Loader.Probe | Source/Definitions/Loader/DefinitionsLoadContext.cs:52-74 | a configured path that is a file is the candidate; a directory yields `<name>.dll`, else `<name>.exe`, when present; otherwise there is no candidate, and a candidate always exists in the snapshot |
| Loader.LoadInternal | Source/Definitions/Loader/DefinitionsLoadContext.cs:123-145 | a hinted name already cached is returned without loading; a failed load leaves the cache unchanged and reports the runtime's error; a successful hinted load of an uncached name returns the loaded assembly, with the cache extended by exactly that assembly under its own full name; an unhinted load caches nothing |
| Loader.LoadFromPath | Source/Definitions/Loader/DefinitionsLoadContext.cs:116-120 | an unreadable assembly name fails with the cache unchanged; a loaded assembly is in the cache, under the name read from the file or its own |
| Loader.CacheHitSkipsProbing | Source/Definitions/Loader/DefinitionsLoadContext.cs:46-50 | a cached full name is answered from the cache, independently of the file system and the search paths |
| Loader.AttemptAgreesWithSnapshot | Source/Definitions/Loader/DefinitionsLoadContext.cs:76-104 | one search step finds an assembly exactly when the path's candidate loads with a case-insensitively equal full name, and then caches it under the requested name; otherwise that name stays uncached |
| Loader.SearchFindsFirstMatch | Source/Definitions/Loader/DefinitionsLoadContext.cs:52-108 | the search returns the assembly of the first matching path in configured order (the cache-free reference `FirstMatch`), cached under the requested name; on a miss it returns null and caches nothing under that name |
| Loader.FirstMatchIsFirst | Source/Definitions/Loader/DefinitionsLoadContext.cs:52-108 | the reference search misses exactly when no path matches, and otherwise returns a matching path's assembly with no matching path before it |
| Loader.SearchCachesUnderOwnNames | Source/Definitions/Loader/DefinitionsLoadContext.cs:76-104 | the search never drops a cache entry, and every entry it adds maps an assembly's own full name to it, except the one under the requested name |
| Loader.FailedCandidateIsSkipped | Source/Definitions/Loader/DefinitionsLoadContext.cs:92-103 | a candidate whose load throws is logged and skipped: the search continues with the next path and the same cache |
| Loader.MismatchCachedUnderOwnNameOnly | Source/Definitions/Loader/DefinitionsLoadContext.cs:80-90 | an identity mismatch is not returned and not cached under the requested name, but stays cached under its own name |
| Loader.SecondLoadHitsCache | Source/Definitions/Loader/DefinitionsLoadContext.cs:44-109 | after a successful load, loading the same name again returns the same assembly and leaves the cache unchanged |
| Loader.DefinitionsLoadContext.constructor | Source/Definitions/Loader/DefinitionsLoadContext.cs:32-37 | a null path list becomes the empty list; the cache starts empty |
| Loader.DefinitionsLoadContext.LoadFromAssemblyPathInternal | Source/Definitions/Loader/DefinitionsLoadContext.cs:123-145 | the method's result and new cache are those of `LoadInternal` on the old cache |
| Loader.DefinitionsLoadContext.LoadFromAssemblyPath | Source/Definitions/Loader/DefinitionsLoadContext.cs:116-120 | the method's result and new cache are those of `LoadFromPath` on the old cache |
| Loader.DefinitionsLoadContext.Load | Source/Definitions/Loader/DefinitionsLoadContext.cs:44-109 | the loop over the search paths returns and caches exactly what `LoadSpec` (cache first, then the first matching path) gives on the old cache |
| Options.WithOverride | Source/Definitions/Core/DefinitionsOptions.cs:55 | setting an override stores the value under (module, key), adds only that key, and leaves every other override unchanged |
| Options.OverrideKeys | Source/Definitions/Core/DefinitionsOptions.cs:55 | after a sequence of override calls, a key is present exactly when it was present before or some call named it |
| Options.UnnamedOverrideKept | Source/Definitions/Core/DefinitionsOptions.cs:55 | an override that no later call names keeps its value |
| Options.LastOverrideWins | Source/Definitions/Core/DefinitionsOptions.cs:55 | of several calls naming the same (module, key), the last call's value is kept |
| Options.DefinitionsOptions.constructor | Source/Definitions/Core/DefinitionsOptions.cs:22-85 | defaults: empty path and critical-module lists, no-op callbacks, no overrides, exact version compatibility |
| Options.DefinitionsOptions.OverrideSetting | Source/Definitions/Core/DefinitionsOptions.cs:55 | the override map becomes `WithOverride` of the old one; every other option is unchanged |
| Options.DefinitionsLibraryBuilder.constructor | Source/Definitions/Core/DefinitionsLibraryBuilder.cs:21 | the builder starts from fresh default options |
| Options.DefinitionsLibraryBuilder.WithAssemblyPaths | Source/Definitions/Core/DefinitionsLibraryBuilder.cs:28-32 | sets the assembly paths (null included), changes nothing else, returns the builder itself |
| Options.DefinitionsLibraryBuilder.WithCriticalModules | Source/Definitions/Core/DefinitionsLibraryBuilder.cs:39-43 | sets the critical module names (null included), changes nothing else, returns the builder itself |
| Options.DefinitionsLibraryBuilder.WithPreLoadAction | Source/Definitions/Core/DefinitionsLibraryBuilder.cs:50-54 | sets the pre-load callback, changes nothing else, returns the builder itself |
| Options.DefinitionsLibraryBuilder.WithOnModuleLoadedAction | Source/Definitions/Core/DefinitionsLibraryBuilder.cs:61-65 | sets the module-loaded callback, changes nothing else, returns the builder itself |
| Options.DefinitionsLibraryBuilder.OverrideModuleSetting | Source/Definitions/Core/DefinitionsLibraryBuilder.cs:74-78 | records the override as `OverrideSetting` does, changes nothing else, returns the builder itself |
| MemoryConfig.FlattenKeys | Source/Definitions/Core/MemoryConfigurationSource.cs:27-30 | the flattened settings hold exactly the keys `module:key` of the overrides |
| MemoryConfig.FlattenValue | Source/Definitions/Core/MemoryConfigurationSource.cs:27-30 | a flattened key holds the value of the last override, in enumeration order, that flattens to it |
| MemoryConfig.FlattenSizeBound | Source/Definitions/Core/MemoryConfigurationSource.cs:29 | flattening never yields more settings than there are overrides |
| MemoryConfig.FlattenSizeExact | Source/Definitions/Core/MemoryConfigurationSource.cs:29 | when no two overrides flatten to the same key, there are exactly as many settings as overrides |
| MemoryConfig.CollidingOverrides | Source/Definitions/Core/MemoryConfigurationSource.cs:29 | the distinct overrides (`a:b`, `c`) and (`a`, `b:c`) collide on `a:b:c`, and the later one wins |
| MemoryConfig.MemoryConfigurationSource.constructor | Source/Definitions/Core/MemoryConfigurationSource.cs:25-31 | the constructor's loop leaves exactly the flattened overrides in the settings |
| MemoryConfig.MemoryConfigurationSource.Build | Source/Definitions/Core/MemoryConfigurationSource.cs:38-41 | the built provider serves the source's settings |
| MemoryConfig.LookupFindsHeldKeys | Source/Definitions/Extensions/ServiceCollectionExtensions.cs:50-57 | in layered configuration a key is found exactly when some layer has it |
| MemoryConfig.LookupLastLayerWins | Source/Definitions/Extensions/ServiceCollectionExtensions.cs:50-57 | the last layer that has a key supplies its value |
| MemoryConfig.OverrideTakesPrecedence | Source/Definitions/Extensions/ServiceCollectionExtensions.cs:50-57 | a module override shadows the caller's configuration for that module's section key; without one, the caller's value is seen |
| Registration.HookEvents | Source/Definitions/Extensions/ServiceCollectionExtensions.cs:182-184 | with a module-loaded callback, one call per module type in order; without one, none |
| Registration.CallbackOncePerLoadedModule | Source/Definitions/Extensions/ServiceCollectionExtensions.cs:124-185 | the module loop calls the callback exactly once for each module, in order, whose configuration succeeded before the loop ended (reference `LoadedModuleTypes`) |
| Registration.NonCriticalFailureContinues | Source/Definitions/Extensions/ServiceCollectionExtensions.cs:135-151 | a non-critical configure failure keeps what it appended, skips conflict handling and the callback, and continues with the next module |
| Registration.CriticalFailureSkipsRest | Source/Definitions/Extensions/ServiceCollectionExtensions.cs:141-198 | a critical configure failure keeps what it appended and ends the assembly's module loop |
| Registration.ConflictsAreTheConflicting | Source/Definitions/Extensions/ServiceCollectionExtensions.cs:169 | the conflicts are exactly the registered descriptors whose service type is tracked by a different descriptor |
| Registration.RemoveCounts | Source/Definitions/Extensions/ServiceCollectionExtensions.cs:172 | removing a descriptor removes one occurrence of it and nothing else |
| Registration.RemovesOnlyTracked | Source/Definitions/Extensions/ServiceCollectionExtensions.cs:169-173 | conflict removal takes from the list exactly one occurrence of each conflict's tracked descriptor, as far as one is still listed (multiset difference with `TrackedOf`), so it removes only tracked descriptors and never adds any |
| Registration.RemovingAbsentTrackedIsNoOp | Source/Definitions/Extensions/ServiceCollectionExtensions.cs:169-173 | when every conflict's tracked descriptor is already gone, removal changes nothing |
| Registration.TrackingIsAddIfAbsent | Source/Definitions/Extensions/ServiceCollectionExtensions.cs:174-180 | tracking keeps every existing entry, and adds an untracked service type with its first registered descriptor |
| Registration.FirstRegistrationTracked | Source/Definitions/Extensions/ServiceCollectionExtensions.cs:169-180 | the first registration of a service type is kept and becomes the tracked one |
| Registration.SecondRegistrationReplacesFirst | Source/Definitions/Extensions/ServiceCollectionExtensions.cs:169-180 | a second, conflicting registration removes the tracked first one and leaves the table unchanged |
| Registration.ThirdRegistrationKeepsBoth | Source/Definitions/Extensions/ServiceCollectionExtensions.cs:169-180 | a third, conflicting registration finds the tracked descriptor gone, so it removes nothing |
| Registration.ThirdRegistrationRemovesNothing | Source/Definitions/Extensions/ServiceCollectionExtensions.cs:169-180 | a second registration of a service type replaces the first, but a third finds the tracked one gone and both later ones stay registered |
| Registration.ExistingPaths | Source/Definitions/Extensions/ServiceCollectionExtensions.cs:65 | the paths walked are exactly the configured ones that exist as a file or a directory |
| Registration.ExistingPathsAppend | Source/Definitions/Extensions/ServiceCollectionExtensions.cs:65 | the filter distributes over concatenation of the configured list, so it keeps the configured order and any repeated path |
| Registration.ExistingPathsSingle | Source/Definitions/Extensions/ServiceCollectionExtensions.cs:65 | one configured path is kept exactly when it exists as a file or a directory; with `ExistingPathsAppend` this fixes the filtered list completely |
| Registration.MissingPathHasNoEffect | Source/Definitions/Extensions/ServiceCollectionExtensions.cs:65-103 | a configured path that does not exist changes neither the registry nor the load cache |
| Registration.FrameworkDescriptors | Source/Definitions/Extensions/ServiceCollectionExtensions.cs:40-57 | the library registers three singletons of its own with fresh identities |
| Registration.Registrar.constructor | Source/Definitions/Extensions/ServiceCollectionExtensions.cs:23 | the caller's service list, an empty tracking table and no callback calls |
| Registration.Registrar.ResolveConflicts | Source/Definitions/Extensions/ServiceCollectionExtensions.cs:169-180 | the two loops remove the tracked descriptors of the conflicts and then track the remaining ones, as `RemoveTracked` and `Track` describe |
| Registration.Registrar.RegisterModules | Source/Definitions/Extensions/ServiceCollectionExtensions.cs:117-199 | the registry after the loop is `RegisterModulesSpec`: a type-load failure registers nothing; otherwise modules run in order until a non-instantiable type or a critical failure |
| Registration.Registrar.LoadAndRegisterFile | Source/Definitions/Extensions/ServiceCollectionExtensions.cs:70-97 | a file loaded through the context has its modules registered; a load that throws registers nothing; the load cache follows the context |
| Registration.Registrar.LoadAndRegisterFiles | Source/Definitions/Extensions/ServiceCollectionExtensions.cs:74-92 | the loop over a directory's files loads and registers each in order, as `LoadAll` describes |
| Registration.Registrar.ProcessExistingPaths | Source/Definitions/Extensions/ServiceCollectionExtensions.cs:65-103 | the loop over the existing paths handles each file or directory in order, as `ProcessPaths` describes |
| Registration.Registrar.AddDefinitions | Source/Definitions/Extensions/ServiceCollectionExtensions.cs:32-106 | it always registers its three services and layers the override configuration over the caller's; without logging it stops before the pre-load callback; with null paths it stops after it; otherwise it processes the existing paths in order |
| Templates.CountPlaceholders | Source/Runtime/Manifest.Configuration/ConfigurationTemplateProvider.cs:81 | the scanning loop counts the non-overlapping `{word}` placeholders, a run of one or more word characters (letters, digits, `_`) between braces, such as `{0}`, `{name}` or `{a_1}` (the reference `PlaceholderCount`) |
| Templates.FormatSpecifierNotCounted | Source/Runtime/Manifest.Configuration/ConfigurationTemplateProvider.cs:81 | a placeholder with a format specifier such as `{0:N2}` is not counted |
| Templates.PlainItemsCounted | Source/Runtime/Manifest.Configuration/ConfigurationTemplateProvider.cs:81 | the plain items `{0}` and `{1}` are each counted once |
| Templates.PadArguments | Source/Runtime/Manifest.Configuration/ConfigurationTemplateProvider.cs:89-98 | the padded arguments have the placeholder count as length, start with the given ones and continue with empty strings |
| Templates.MissingTemplateNotFound | Source/Runtime/Manifest.Configuration/ConfigurationTemplateProvider.cs:72-79 | a template absent from configuration resolves to false with no value and caches nothing |
| Templates.EnforcedPlaceholderCount | Source/Runtime/Manifest.Configuration/ConfigurationTemplateProvider.cs:81-87 | with enforcement, resolution succeeds exactly when there are at least as many arguments as placeholders, and then formats with the arguments unchanged |
| Templates.PaddedWhenNotEnforced | Source/Runtime/Manifest.Configuration/ConfigurationTemplateProvider.cs:89-102 | without enforcement a configured template always resolves, with the arguments padded by empty strings, and is cached |
| Templates.CacheHitIgnoresConfiguration | Source/Runtime/Manifest.Configuration/ConfigurationTemplateProvider.cs:60-70 | a cached template is used whatever the configuration, root and enforcement are, and its arguments are not checked |
| Templates.CacheHoldsOnlyTemplates | Source/Runtime/Manifest.Configuration/ConfigurationTemplateProvider.cs:58-103 | the cache only grows, keeps its entries and holds only resolved templates; a resolution succeeds exactly when it yields a value |
| Templates.SecondResolutionUsesCache | Source/Runtime/Manifest.Configuration/ConfigurationTemplateProvider.cs:58-103 | after a success, the same scope, key and culture resolve from the cache with the same template, even against empty configuration |
| Templates.ConfigurationTemplateProvider.constructor | Source/Runtime/Manifest.Configuration/ConfigurationTemplateProvider.cs:28-34 | keeps the configuration, root key and enforcement flag; empty cache |
| Templates.ConfigurationTemplateProvider.WithDefaults | Source/Runtime/Manifest.Configuration/ConfigurationTemplateProvider.cs:28 | the default root key is `Manifest` and placeholder counts are enforced |
| Templates.ConfigurationTemplateProvider.TryResolveInternal | Source/Runtime/Manifest.Configuration/ConfigurationTemplateProvider.cs:58-103 | the result and the new cache are those of `TryResolveSpec` on the old cache |
| Templates.ConfigurationTemplateProvider.TryResolve | Source/Runtime/Manifest.Configuration/ConfigurationTemplateProvider.cs:53-56 | a null culture resolves in the current culture |
| Templates.ConfigurationTemplateProvider.Resolve | Source/Runtime/Manifest.Configuration/ConfigurationTemplateProvider.cs:37-44 | a resolved template is returned; otherwise `KeyNotFoundException` naming the scope, key and culture |
| Templates.ConfigurationTemplateProvider.ResolveCurrent | Source/Runtime/Manifest.Configuration/ConfigurationTemplateProvider.cs:47-50 | resolution without a culture uses the current culture |
| ScopedAccessor.Create | Source/Runtime/Manifest/ScopedTemplateAccessor.cs:19-23 | a null provider is rejected with `ArgumentNullException`; otherwise the scope name is the enum type's name |
| ScopedAccessor.GetValue | Source/Runtime/Manifest/ScopedTemplateAccessor.cs:32-41 | an undefined enum value is rejected; otherwise the provider is asked for the member's name, with null arguments as none |
| ScopedAccessor.GetValueInCulture | Source/Runtime/Manifest/ScopedTemplateAccessor.cs:52-62 | an undefined key is rejected before a null culture is; both valid, the provider is asked in that culture |
| ScopedAccessor.TryGetValue | Source/Runtime/Manifest/ScopedTemplateAccessor.cs:73-82 | an undefined key is rejected; otherwise the provider's try-resolve is called with the member's name |
| ScopedAccessor.UndefinedKeyRejectedFirst | Source/Runtime/Manifest/ScopedTemplateAccessor.cs:32-82 | all three accessors reject an undefined key the same way, whatever the culture and arguments |
| ScopedAccessor.NullArgumentsAreEmpty | Source/Runtime/Manifest/ScopedTemplateAccessor.cs:32-82 | null arguments behave as an empty argument array in every accessor |
| ScopedAccessor.TryGetValueIsProviderAnswer | Source/Runtime/Manifest/ScopedTemplateAccessor.cs:73-82 | the accessor's try-get answers what the provider's try-resolve answers for the scope and the member's name |
| Results.CategoryNameRoundTrip | Source/Results/ErrorCategory.cs:6-58 | every error category parses back from its name |
| Results.FirstCode | Source/Results.AspNetCore/ProblemDetailsExtensions.cs:48-52 | the first error's code, or null when there are no errors |
| Results.FirstCategory | Source/Results.AspNetCore/ResultExtensions.cs:158-177 | the first error's category, or `General` (the default of the error struct) when there are no errors |
| ResultJson.CreateConverter | Source/Results/ResultJsonConverter.cs:20-39 | `Result` gets the non-generic converter and `Result<T>` the generic one for `T`; no other type gets a converter |
| ResultJson.ConvertersCoverOnlyTheConcreteResults | Source/Results/ResultJsonConverter.cs:15-39 | every converted type is accepted by `CanConvert`, but `IResult` and other implementations are accepted and get no converter |
| ResultJson.WriteHeader | Source/Results/ResultJsonConverter.cs:111-120 | the writer receives the start of the object, `IsSuccess`, `IsFailure` and `Status` |
| ResultJson.WriteOptionalParts | Source/Results/ResultJsonConverter.cs:122-141 | the writer receives the optional messages, errors or value, and error parts, then the end of the object |
| ResultJson.Write | Source/Results/ResultJsonConverter.cs:109-247 | both converters' writers emit exactly the token stream `WriteTokens` of the result, the generic one with `Value` for a success without errors |
| ResultJson.StepProperty | Source/Results/ResultJsonConverter.cs:77-95 | an unknown property leaves every field unchanged, and each known property changes only its own field; a `Value` property, read only by the generic converter, also marks the value as found |
| ResultJson.Finish | Source/Results/ResultJsonConverter.cs:98-106 | a missing status becomes 500 with a deserialization error unless errors were read; messages and the value are kept |
| ResultJson.ReadSpec | Source/Results/ResultJsonConverter.cs:61-64 | input that does not start with an object is rejected |
| ResultJson.Read | Source/Results/ResultJsonConverter.cs:53-208 | the reading loop of either converter returns exactly `ReadSpec` of the tokens, the generic one also reading `Value` |
| ResultJson.RoundTrip | Source/Results/ResultJsonConverter.cs:53-142 | reading what was written recovers the status, the non-empty messages and errors, and, for the generic converter, the value of a success without errors |
| ResultJson.WriteStartsWithFlagsAndStatus | Source/Results/ResultJsonConverter.cs:111-120 | every written object starts with both flags and the status, and ends with the end of the object |
| ResultJson.WrittenOptionalProperties | Source/Results/ResultJsonConverter.cs:122-141 | messages, errors and error are written exactly when non-empty; `Value` exactly for a generic success without errors |
| ResultJson.ReadStopsAtFirstEndObject | Source/Results/ResultJsonConverter.cs:70-75 | reading ends at the first end of an object; anything after it is ignored |
| ResultJson.NoStatusPropertyKeepsStatus | Source/Results/ResultJsonConverter.cs:70-96 | without a `Status` property the status read so far is unchanged |
| ResultJson.MissingStatusIsServerError | Source/Results/ResultJsonConverter.cs:98-104 | a successfully read object with no `Status` has status 500 and some errors |
| ResultJson.NestedObjectQuirk | Source/Results/ResultJsonConverter.cs:77-95 | an unknown property whose value is an object has that object's `Status` read as the top-level one, and its end ends the read |
| ModelErrors.WithModelError | Source/Results.AspNetCore/DictionaryExtensions.cs:12-22 | the message is appended to the key's list, or starts a new list; every other key is unchanged |
| ModelErrors.ModelErrorsInOrder | Source/Results.AspNetCore/DictionaryExtensions.cs:12-22 | after several additions a key is present exactly when it was before or received a message, and its list gains all its messages in order |
| ModelErrors.ErrorDictionary.AddModelError | Source/Results.AspNetCore/DictionaryExtensions.cs:12-22 | the dictionary becomes `WithModelError` of its old contents |
| ProblemDetailsMapping.ErrorObjectRoundTrip | Source/Results.AspNetCore/ProblemDetailsExtensions.cs:177-205 | the error object of an error converts back to that error, with an empty inner list normalised to null |
| ProblemDetailsMapping.ErrorObjectsRoundTrip | Source/Results.AspNetCore/ProblemDetailsExtensions.cs:173-205 | the list of error objects converts back to the errors, element by element |
| ProblemDetailsMapping.ErrorObjectShape | Source/Results.AspNetCore/ProblemDetailsExtensions.cs:177-205 | an error object always has category (by name), code and message; `data` only when present; `innerErrors` only when non-empty |
| ProblemDetailsMapping.WithErrorExtension | Source/Results.AspNetCore/ProblemDetailsExtensions.cs:164-174 | no errors leave the problem unchanged; otherwise `zentientErrors` is set to the error objects |
| ProblemDetailsMapping.ProblemType | Source/Results.AspNetCore/ProblemDetailsExtensions.cs:48-52 | the problem type is the base URI followed by the first error's code, or by the status code when there is none |
| ProblemDetailsMapping.ModelStateKey | Source/Results.AspNetCore/ProblemDetailsExtensions.cs:63-72 | a validation error is keyed by its code, else by its string data, else `General`, where blank means null, empty or only white space as `char.IsWhiteSpace` counts it; the key is never blank |
| ProblemDetailsMapping.UnicodeSpaceCodeIsBlank | Source/Results.AspNetCore/ProblemDetailsExtensions.cs:63-72 | a code made of Unicode spaces (no-break space, ideographic space) is blank, so the key falls back to `General` |
| ProblemDetailsMapping.ModelStatePairsAreValidationErrors | Source/Results.AspNetCore/ProblemDetailsExtensions.cs:61-74 | the model-state entries are exactly the key and message of each error of category `Validation` |
| ProblemDetailsMapping.ModelStateKeysAreValidationKeys | Source/Results.AspNetCore/ProblemDetailsExtensions.cs:58-74 | a model-state key is present exactly when some validation error has that key |
| ProblemDetailsMapping.FactoryCallFor | Source/Results.AspNetCore/ProblemDetailsExtensions.cs:56-94 | the factory gets the validation call exactly for a validation problem, with the model state; both calls carry the status, title, type and detail |
| ProblemDetailsMapping.FillMissing | Source/Results.AspNetCore/ProblemDetailsExtensions.cs:96-100 | status, title, type, detail and instance are filled from the result and the request only where the factory left them null |
| ProblemDetailsMapping.ProblemDetailsFor | Source/Results.AspNetCore/ProblemDetailsExtensions.cs:35-105 | null factory and null context are rejected in that order, and a success with `InvalidOperationException`; otherwise the factory's problem with the missing fields filled and the error extension |
| ProblemDetailsMapping.NewFactoryCall | Source/Results.AspNetCore/ProblemDetailsExtensions.cs:48-94 | the method builds exactly the factory call `FactoryCallFor` describes |
| ProblemDetailsMapping.FillMissingMembers | Source/Results.AspNetCore/ProblemDetailsExtensions.cs:96-100 | the `??=` assignments give exactly `FillMissing` of the factory's problem |
| ProblemDetailsMapping.BuildModelState | Source/Results.AspNetCore/ProblemDetailsExtensions.cs:60-74 | the loop builds exactly the model state of the validation errors |
| ProblemDetailsMapping.ToProblemDetails | Source/Results.AspNetCore/ProblemDetailsExtensions.cs:35-123 | both overloads return exactly `ProblemDetailsFor`: the argument checks in order, then the factory's problem with missing members filled and the error extension |
| ProblemDetailsMapping.FactoryValuesWin | Source/Results.AspNetCore/ProblemDetailsExtensions.cs:96-100 | a value the factory set is never overwritten |
| ProblemDetailsMapping.ZentientErrorsExtension | Source/Results.AspNetCore/ProblemDetailsExtensions.cs:164-174 | `zentientErrors` is present exactly when the result has errors, and holds their error objects |
| ProblemDetailsMapping.StatusCodeFor | Source/Results.AspNetCore/ProblemDetailsExtensions.cs:131-154 | a success is 200; a failure takes the code of its first error's category, or 500 without errors; every code is one of the table's nine |
| ProblemDetailsMapping.CategoryStatusCodes | Source/Results.AspNetCore/ProblemDetailsExtensions.cs:131-154 | eight categories map to their specific codes and every other to 500; a failure without errors gives 500 |
| ActionResults.NewApiErrorResponse | Source/Results.AspNetCore/ResultExtensions.cs:143-150 | the response copies the status code, description, messages and errors; the trace id is the activity's, or empty |
| ActionResults.FailureResult | Source/Results.AspNetCore/ResultExtensions.cs:42-46 | a failure is a JSON object result with the result's status code and an error response built from the result |
| ActionResults.ToActionResult | Source/Results.AspNetCore/ResultExtensions.cs:27-47 | a failure becomes the failure result |
| ActionResults.ToActionResultOf | Source/Results.AspNetCore/ResultExtensions.cs:61-80 | a failure of a generic result becomes the same failure result |
| ActionResults.SuccessTable | Source/Results.AspNetCore/ResultExtensions.cs:29-39 | a non-generic success maps 201, 202 and 204 to their results and every other code to Ok |
| ActionResults.GenericSuccessTable | Source/Results.AspNetCore/ResultExtensions.cs:63-73 | a generic success carries its value for every code but 204, and both overloads agree exactly at 204 |
| ActionResults.FailurePayloadCopiesResult | Source/Results.AspNetCore/ResultExtensions.cs:42-79 | both overloads turn a failure into the same payload, with the result's status, messages and errors unchanged |
| ActionResults.StatusCodeFor | Source/Results.AspNetCore/ResultExtensions.cs:158-177 | a success is 200; a failure takes the code of its first error's category, or 500 without errors; every code is one of this table's nine, 429 included |
| ActionResults.CategoryStatusCodes | Source/Results.AspNetCore/ResultExtensions.cs:158-177 | nine categories map to their specific codes and every other to 500; a success gives 200 and a failure without errors 500 |
| ActionResults.StatusTablesDiffer | Source/Results.AspNetCore/ResultExtensions.cs:158-177 | the two status tables differ on exactly nine categories, each being 500 in the table that does not know it |
| ActionResults.ResultExecutingContext.Next | Source/Results.AspNetCore/Filters/ProblemDetailsResultFilter.cs:46 | running the rest of the pipeline executes the current result once and changes nothing else |
| PathString.ToUriComponent | Source/Results.AspNetCore/ProblemDetailsResultFilter.cs:44 | the request path as the filter's `instance` string: `""` when the path has no value or is empty, never null |
| PathString.ValidPathUnchanged | Source/Results.AspNetCore/ProblemDetailsResultFilter.cs:44 | a path made only of characters a URI path may hold is its own string form |
| PathString.EscapedIsFixed | Source/Results.AspNetCore/ProblemDetailsResultFilter.cs:44 | escaping is idempotent: characters a path may not hold are percent-escaped as UTF-8 bytes, and existing `%XY` escapes are kept, so the result is already escaped |
| PathString.SpaceIsEscaped | Source/Results.AspNetCore/ProblemDetailsResultFilter.cs:44 | the path `/a b` gives `/a%20b`, and an empty or missing path gives `""` |
| MvcResultFilter.NewFilter | Source/Results.AspNetCore/ProblemDetailsResultFilter.cs:30-33 | null options are rejected with `ArgumentNullException` |
| MvcResultFilter.Title | Source/Results.AspNetCore/ProblemDetailsResultFilter.cs:42 | the title mapped for the status code, else the status description |
| MvcResultFilter.WithTraceId | Source/Results.AspNetCore/ProblemDetailsResultFilter.cs:102-105 | the request's trace identifier is added as `traceId` exactly when configured |
| MvcResultFilter.FilterProblem | Source/Results.AspNetCore/ProblemDetailsResultFilter.cs:40-105 | building the problem throws exactly when errors are mapped without a custom problem factory and some error has no code, and then throws `ArgumentNullException("key")` |
| MvcResultFilter.ObjectResultSubclassesAreConverted | Source/Results.AspNetCore/ProblemDetailsResultFilter.cs:38 | the filter acts on a failed result held by `ObjectResult` and by its subclasses Ok, Created, Accepted and UnprocessableEntity, and never on a status-code result |
| MvcResultFilter.BuildErrorsByCode | Source/Results.AspNetCore/ProblemDetailsResultFilter.cs:54-58 | the loop groups the messages by error code in order, and fails on a null code |
| MvcResultFilter.ErrorsByCodeKeys | Source/Results.AspNetCore/ProblemDetailsResultFilter.cs:54-58 | the grouped errors have exactly the errors' codes as keys |
| MvcResultFilter.OnResultExecuting | Source/Results.AspNetCore/ProblemDetailsResultFilter.cs:36-115 | only an object result (`ObjectResult` or one of its subclasses) holding a failed result is replaced, by a problem+json object result with the result's status code, unless building the problem throws; nothing is executed |
| MvcResultFilter.CustomFactoryWins | Source/Results.AspNetCore/ProblemDetailsResultFilter.cs:48-51 | a custom factory overrides validation mapping, whatever the errors |
| MvcResultFilter.NullCodeThrows | Source/Results.AspNetCore/ProblemDetailsResultFilter.cs:55-58 | with built-in validation mapping, an error without a code makes the filter throw `ArgumentNullException` |
| MvcResultFilter.BuiltInProblem | Source/Results.AspNetCore/ProblemDetailsResultFilter.cs:52-100 | the built-in problem has the result's status and detail, the default type and, as its instance, the request path's escaped string form (`""` for an empty path); its title and errors depend on whether errors are mapped |
| MvcResultFilter.TraceIdIffRequested | Source/Results.AspNetCore/ProblemDetailsResultFilter.cs:74-105 | without custom factories the only extension is `traceId`, present exactly when configured |
| AsyncResultFilter.NewFilter | Source/Results.AspNetCore/Filters/ProblemDetailsResultFilter.cs:22-25 | a null factory is rejected with `ArgumentNullException` |
| AsyncResultFilter.HeldResult | Source/Results.AspNetCore/Filters/ProblemDetailsResultFilter.cs:36-44 | a result is taken from the value of an object result (`ObjectResult` or one of its subclasses), directly or from a completed task, and from nothing else |
| AsyncResultFilter.FailureProblem | Source/Results.AspNetCore/Filters/ProblemDetailsResultFilter.cs:70 | a failure's problem is the one `ToProblemDetails` builds |
| AsyncResultFilter.Convert | Source/Results.AspNetCore/Filters/ProblemDetailsResultFilter.cs:57-79 | a success keeps its status code as an Ok object result or a bare status code; a failure becomes an object result carrying exactly its problem details |
| AsyncResultFilter.ObjectResultSubclassesAreLookedInto | Source/Results.AspNetCore/Filters/ProblemDetailsResultFilter.cs:36-44 | a result held by an Ok, Created, Accepted or UnprocessableEntity object result, directly or through a completed task, is converted; a status-code result never is |
| AsyncResultFilter.OnResultExecutionAsync | Source/Results.AspNetCore/Filters/ProblemDetailsResultFilter.cs:34-47 | a held result is replaced by its conversion, anything else is kept, and the pipeline then runs once on the new result |
| AsyncResultFilter.SuccessConversion | Source/Results.AspNetCore/Filters/ProblemDetailsResultFilter.cs:59-67 | a success becomes Ok carrying the value for an object result, else a bare status code, and never No Content |
| AsyncResultFilter.FailureConversion | Source/Results.AspNetCore/Filters/ProblemDetailsResultFilter.cs:68-78 | a failure is unprocessable exactly when its problem has validation errors, otherwise an object result with the problem's status, which is always set |
| AsyncResultFilter.ValidationFailureIsUnprocessable | Source/Results.AspNetCore/Filters/ProblemDetailsResultFilter.cs:72-75 | a validation failure whose factory returns validation errors becomes an unprocessable-entity result |
| EndpointFilter.InvokeAsync | Source/Results.AspNetCore/Filters/ZentientResultEndpointFilter.cs:19-54 | a value that is not a result passes through; a result without a registered factory throws `InvalidOperationException` |
| EndpointFilter.ResultsAreConverted | Source/Results.AspNetCore/Filters/ZentientResultEndpointFilter.cs:28-53 | with a factory, every result is converted: a failure to the `ToProblemDetails` problem, and a success to Ok only for a 200 object result |
| EndpointFilter.SuccessTables | Source/Results.AspNetCore/Filters/ZentientResultEndpointFilter.cs:31-50 | the generic and non-generic success tables agree except at 200; non-generic 200 and 204 give No Content, and other codes but 201 a bare status code |

## Left out

- Assembly loading, reflection and activation are inputs. These are the runtime's `LoadFromAssemblyPath`, `AssemblyName.GetAssemblyName`, `GetTypes` and `Activator.CreateInstance`. A file-system snapshot says which files hold valid images and with which identity, and a catalog lists each assembly's module types.
- Directory enumeration order and dictionary enumeration order are inputs: a `*.dll` listing per directory, and an enumeration order of the overrides.
- The escaping of the request path follows ASP.NET Core's `PathString.ToUriComponent`, which is not part of this model's sources. Dafny characters are Unicode scalar values, so a path holding an unpaired UTF-16 surrogate is not modelled.
- The serializer's check that a custom converter's `Read` stopped on the matching end of the object is not modelled. `ResultJson.Read` and `ResultJson.NestedObjectQuirk` state what the converter itself returns.
- Path handling uses `/` as the separator. `Text.EqualsIgnoreCase` folds ASCII letters only, not the full Unicode case mapping of `OrdinalIgnoreCase`. It decides the probe's file-name match, the load context's assembly-identity check and critical-module membership.
- Logging, `BuildServiceProvider` and `GetRequiredService` are left out. Only whether logging services are registered is modelled.
- The binding of module settings (`IModuleSettings`, `Configure<T>`, `ValidateDataAnnotations`) and the options pattern are not modelled. Neither is the DI container's resolution of duplicates.
- The pre-load and module-loaded callbacks are assumed not to throw. Their invocations are recorded as events.
- `VersionCompatibility` is not modelled beyond its default: the code never enforces it. The Polly `PolicyRegistry` and `WithPolicyRegistry` are not modelled, because they depend on a foreign library.
- Configuration keys are compared exactly. The configuration system's case-insensitive keys and its `ConfigurationBuilder` internals are not modelled; layered lookup is modelled instead.
- The load context ships twice, under `Loader` and `Core` (Source/Definitions/Core/DefinitionsLoadContext.cs:21-124). The two copies take the same cache, search, identity-check and catch steps, so one class models both.
- Templates.ConfigurationTemplateProvider.TryResolveInternal: the result of `string.Format` is modelled as the culture, template and arguments it would format. Formatting itself and a format exception are not modelled.
- Templates.CountPlaceholders: `\w` is taken to be ASCII letters, digits and `_`, not the full Unicode word class.
- A null `args` array passed to `Resolve` or `TryResolve` is not modelled: the source throws, on the padding path and in `string.Format` on a cache hit. A null culture passed to `Resolve` is not modelled either. Arguments are a sequence, and `Resolve`'s culture is always given.
- Culture is a name. The current culture is a parameter, not ambient state.
- The enum member's name is looked up in the enum's description. `Enum.IsDefined` over flags combinations is not modelled.
- Concurrency is not modelled: the `ConcurrentDictionary` cache is a map, and the static tracking table is a field.
- Async and `Task` are not modelled. `ToActionResultAsync`, the blocking `.Result`, and the awaiting of `next` are modelled synchronously.
- `ProblemDetails`, which the source mutates in place, is a value.
- ProblemDetailsMapping.BuildModelState: `ModelStateDictionary` is modelled as an ordinal message dictionary, the one `AddModelError` builds. ASP.NET Core's `ModelStateDictionary` compares keys ignoring case, so in the source two validation errors keyed `Email` and `email` share one entry. The model keeps them under two keys.
- ProblemDetailsMapping.ModelStateKeysAreValidationKeys: exact only for keys that differ other than in case, for the reason on the line above.
- The internals of `ProblemDetailsFactory` are a function given as input.
- `JsonSerializer` for statuses, errors and values is modelled as opaque tokens. Nested JSON structure is only modelled where the quirk shows it. `JsonSerializerOptions` are not modelled.
- A null `Errors` or `Messages` list on a result is not modelled (lists are sequences).
- `IResultStatus.ToHttpStatusCode` is taken to be the status code.
- Trace identifiers and `Activity.Current` are inputs.
- `OnResultExecuted` does nothing in the source and is not modelled.
- The DI wiring files (`AddZentientResults` and similar) are not part of this model. They only register the filters and converters modelled here.
- Registration.Registrar.AddDefinitions: what `GetRequiredService` would resolve is reduced to the flag `hasLogging`. The configuration registered is returned as the list of layers rather than an `IConfiguration` service.
- AsyncResultFilter.Convert: the `?? 500` fallback is unreachable, because `ToProblemDetails` always sets the status; the model keeps it without a separate case.
