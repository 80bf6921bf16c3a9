# AotObjectMapper in Dafny

AotObjectMapper is a C# source generator. It writes object-to-object mapping
code at compile time from attributes on a `partial` mapper class:
`[GenerateMapper]`, `[Map<TSource, TDestination>]`, `[UseMap<TMapper, TSource, TDestination>]`,
the `PreMap`/`PostMap`/`ForMember`/`UseFactory` hooks, the query hooks and
`UseFormatProvider`. This project models the parts of it that make decisions,
and proves what those decisions guarantee. It has three parts.

- **The runtime mapping context.** `MapperContextBase` and the standalone
  `MapperContext` keep a depth counter with an optional limit. They also keep
  a reference cache so that a shared or circular object graph is mapped once
  per source object. Object identity is modelled by node identifiers in a
  source graph. Destinations are freshly allocated `DestNode` objects.
  `ContextBase` and `Context` model the two classes. `ObjectGraph` holds
  the shared graph model.
- **The generator's planning logic.** This covers:
  - the `MappingOptions` flags;
  - the Roslyn attribute lookups;
  - the base-chain property walks;
  - the simple-type and blank-constructor rules;
  - the polymorphism map;
  - the enum and polymorphic-dispatch switch builders;
  - the format-provider choice;
  - the `MethodGenerationInfo` constructor;
  - the assignment planner, which tries strategies in order and takes the
    first that applies: exact type, another mapper's map, the mapper's own
    map, enum, collection projection, then `IConvertible`. It reports the
    AOM1xx/AOM2xx diagnostics.

  The generator also contains an older copy of several of these files, in
  its root namespace. That copy is modelled separately (the `Legacy*`
  modules), and each such module is related to its newer counterpart by
  lemmas.
- **Support code.** The `IndentedStringBuilder` is a class over a shared
  string buffer. The AOM202 analyzer (`PreferNameOfAnalyzer`) resolves a
  `[PreferNameOf("T")]` type parameter innermost-scope first and reports a
  string literal that names an accessible member of that type.

Roslyn symbols are values of `Symbols.TypeSym` and its sibling datatypes.
Symbol equality (`SymbolEqualityComparer.Default`, which ignores nullable
annotations) is `SymEq`. Every .NET call that can throw is modelled as a
`Result` failure rather than a precondition. This covers `Single`,
`SingleOrDefault`, indexing `TypeArguments` or `ConstructorArguments`,
casts, and `Convert.ToInt32`. `ToDictionary(p => p.Name)` is modelled as
written by `MethodGenerationInfo.ToDictionaryByName`, which fails on a
duplicate name; the property dictionaries that the two method-generation
constructors build use the corrected by-name deduplication instead (see
"## Findings" and "## Left out").

Methods are used where the source has loops or changes state. Each is
proved equal to a specification function, and the properties are proved
about that function.

## Model

| member | source | states |
|---|---|---|
| MappingOptions.DistinctSingleBits | src/AotObjectMapper.Abstractions/Enums/MappingOptions.cs:9-30 | The five options are the single bits 1, 2, 4, 8, 16 and pairwise disjoint, so any combination can be decoded |
| MappingOptions.NoneDecodesToNothing | src/AotObjectMapper.Abstractions/Enums/MappingOptions.cs:12 | `None` (0) enables no option |
| MappingOptions.DecodeEncode | src/AotObjectMapper.Abstractions/Enums/MappingOptions.cs:9-30 | Masking an encoded set of options gives back exactly those options |
| MappingOptions.EncodeDecode | src/AotObjectMapper.Abstractions/Enums/MappingOptions.cs:9-30 | Decoding then encoding keeps exactly the five defined bits of a value |
| MappingOptions.DecodeIndependent | src/AotObjectMapper.Abstractions/Enums/MappingOptions.cs:9-30 | OR-ing in one flag bit turns on that option and changes no other |
| MappingOptions.FromAttributeValue | src/AotObjectMapper.Mapper/MapperInfo/MethodGenerationInfo.cs:105-112 | `Convert.ToInt32` of the options argument overflows exactly above int.MaxValue; otherwise the decoded flags are the value's low five bits |
| ContextBase.MapperContextBase.constructor | src/AotObjectMapper.Abstractions/Models/MapperContextBase.cs:49-52 | A new context has depth 0, the given limit, an empty reference cache and no hook calls |
| ContextBase.MapperContextBase.IncrementDepth | src/AotObjectMapper.Abstractions/Models/MapperContextBase.cs:60-69 | Throws MaxMapDepthException, leaving the depth unchanged, exactly when depth >= MaxDepth (never without a limit); otherwise depth + 1, which stays within the limit |
| ContextBase.MapperContextBase.DecrementDepth | src/AotObjectMapper.Abstractions/Models/MapperContextBase.cs:77-82 | Depth - 1, which never goes negative (the debug assertion) |
| ContextBase.MapperContextBase.GetOrMapObject | src/AotObjectMapper.Abstractions/Models/MapperContextBase.cs:103-122 | A cached source returns its cached destination and changes nothing. An uncached source gets a fresh destination that is cached before population. The cache only grows. Mapping succeeds whenever the limit leaves room for every unmapped node. Mapping an uncached source fails when following first members through uncached sources reaches the limit. Every failure is MaxMapDepthException carrying the limit, and there is none without a limit. On success every reachable source is cached, depth is restored and every pre-map hook saw a depth within the limit |
| ContextBase.MapperContextBase.MapUncached | src/AotObjectMapper.Abstractions/Models/MapperContextBase.cs:115-121 | The miss path: a fresh destination is cached under the source, then populated. It succeeds when the limit leaves room and fails when the chain of uncached first members goes past the limit. Every failure is MaxMapDepthException with the limit. Its hook is the first one logged, at depth + 1 |
| ContextBase.MapperContextBase.CacheNew | src/AotObjectMapper.Abstractions/Models/MapperContextBase.cs:115-117 | `ExistingRefencedObjects.Add(source, sourceInitializer())`: the cache gains exactly the fresh destination, and the count of unmapped sources decreases |
| ContextBase.MapperContextBase.Populate | src/AotObjectMapper.Abstractions/Models/MapperContextBase.cs:119 | The generated populate method: it increments the depth, runs the pre-map hook, maps each member through GetOrMapObject and decrements the depth. It succeeds within the limit. It fails when the depth has already reached the limit, or when the chain of uncached first members goes past it. Every failure is MaxMapDepthException with the limit. On success the depth is as before |
| ContextBase.MapperContextBase.PreMapHook | test/AotObjectMapper.Tests/MapDepthTests.cs:10-21 | A pre-map hook observes the source and the current depth, logged in call order |
| ContextBase.MapperContextBase.MapMembers | src/AotObjectMapper.Abstractions/Models/MapperContextBase.cs:119 | Each child source goes through GetOrMapObject in order. The destinations returned are the cached ones for the children, in order. It fails when the first child is uncached and its chain of first members goes past the limit. Every failure is MaxMapDepthException with the limit |
| ContextBase.MapCircularParentChild | test/AotObjectMapper.Tests/ReferencePreservationTests.cs:20-30 | A parent and child that refer to each other map to two distinct destinations that refer to each other, with no infinite recursion |
| ContextBase.MapWithMaxDepthTwo | test/AotObjectMapper.Tests/MapDepthTests.cs:10-34 | With MaxDepth 2, the parent's hook sees depth 1 and the child's hook sees depth 2 |
| ContextBase.MapChainPastMaxDepth | src/AotObjectMapper.Abstractions/Models/MapperContextBase.cs:60-64 | With MaxDepth 2, mapping the chain 0 → 1 → 2 throws MaxMapDepthException(2): the third object meets depth 2 >= MaxDepth |
| ContextBase.MapTwiceWithSharedContext | test/AotObjectMapper.Tests/NestedMapping.cs:53-65 | Two objects sharing a child, mapped with one context, share one destination child |
| Context.MapperContext.constructor | src/AotObjectMapper.Abstractions/Models/MapperContext.cs:46-49 | Depth 0, the given limit, an empty AdditionalContext and an empty cache |
| Context.MapperContext.WithAdditionalContext | src/AotObjectMapper.Abstractions/Models/MapperContext.cs:52-55 | As the first constructor, with the given dictionary as AdditionalContext |
| Context.MapperContext.IncrementDepth | src/AotObjectMapper.Abstractions/Models/MapperContext.cs:71-80 | As written: throws exactly when `MaxDepth > Depth` (never without a limit), leaving the depth alone; otherwise depth + 1 |
| Context.MapperContext.DecrementDepth | src/AotObjectMapper.Abstractions/Models/MapperContext.cs:86-91 | Depth - 1, never negative |
| Context.MapperContext.GetOrMapObject | src/AotObjectMapper.Abstractions/Models/MapperContext.cs:109-128 | A hit returns the cached destination unchanged. A miss fails exactly when the limit is above the current depth. On success every reachable source is cached and the depth is restored |
| Context.MapperContext.MapUncached | src/AotObjectMapper.Abstractions/Models/MapperContext.cs:121-127 | The miss path: a fresh destination is cached, then populated. It fails exactly when the limit is above the depth |
| Context.MapperContext.CacheNew | src/AotObjectMapper.Abstractions/Models/MapperContext.cs:121-123 | The cache gains exactly the fresh destination under the source |
| Context.MapperContext.Populate | src/AotObjectMapper.Abstractions/Models/MapperContext.cs:125 | The generated populate method on this context. It fails exactly when the limit is above the depth; on success the depth is restored |
| Context.MapperContext.MapMembers | src/AotObjectMapper.Abstractions/Models/MapperContext.cs:125 | Each child goes through GetOrMapObject in order, and the cached destinations are returned in order |
| Context.MapWithMaxDepthTwoRefused | src/AotObjectMapper.Abstractions/Models/MapperContext.cs:73 | With MaxDepth 2, the very first mapping of a fresh context already fails |
| Context.MapCircularTwice | test/AotObjectMapper.Tests/ReferencePreservationTests.cs:20-30 | Without a limit, a circular parent and child map to a cycle, and mapping the parent again returns the same destination |
| RoslynExtensions.GetGenericAttribute | src/AotObjectMapper.Mapper/Extensions/RoslynExtensions.cs:10-24 | Null exactly when no attribute has the name, the arity and type arguments equal to the given types. Throws exactly when several do. Otherwise returns that attribute |
| RoslynExtensions.SymbolsOf | src/AotObjectMapper.Mapper/Extensions/RoslynExtensions.cs:57-61 | The symbols of the SymbolAttributeInfo pairs, in order |
| RoslynExtensions.GetSymbolsWithSingleAttribute | src/AotObjectMapper.Mapper/Extensions/RoslynExtensions.cs:26-39 | Throws exactly when some symbol has two attributes of the name. Otherwise yields, in order, exactly the symbols with one such attribute, each paired with it |
| RoslynExtensions.GetSymbolsWithSingleGenericAttribute | src/AotObjectMapper.Mapper/Extensions/RoslynExtensions.cs:41-54 | Throws exactly when GetGenericAttribute throws for some symbol. Otherwise each result is paired with its matching generic attribute |
| RoslynExtensions.SingleGenericIsFilter | src/AotObjectMapper.Mapper/Extensions/RoslynExtensions.cs:41-54 | On success, the symbols returned are exactly the input symbols with one matching generic attribute, in input order |
| TypeSymbolExtensions.BaseChainFrom | src/AotObjectMapper.Mapper/Extensions/ITypeSymbolExtensions.cs:16 | The `current = current.BaseType` walk is empty exactly for null and starts at its start |
| TypeSymbolExtensions.BaseChain | src/AotObjectMapper.Mapper/Extensions/ITypeSymbolExtensions.cs:16 | A type's chain starts with the type itself |
| TypeSymbolExtensions.WalkProperties | src/AotObjectMapper.Mapper/Extensions/ITypeSymbolExtensions.cs:12-48 | The loops over the base chain with a seen-set equal the first-occurrence filter of the chain's accepted properties |
| TypeSymbolExtensions.GetAllReadableProperties | src/AotObjectMapper.Mapper/Extensions/ITypeSymbolExtensions.cs:12-29 | Equal to ReadableProperties, characterised by ReadablePropertiesCharacterized |
| TypeSymbolExtensions.GetAllSetableProperties | src/AotObjectMapper.Mapper/Extensions/ITypeSymbolExtensions.cs:31-48 | Equal to SettableProperties, characterised by SettablePropertiesCharacterized |
| TypeSymbolExtensions.ChainPropertiesMembership | src/AotObjectMapper.Mapper/Extensions/ITypeSymbolExtensions.cs:16-18 | A property is walked exactly when some type in the chain declares it |
| TypeSymbolExtensions.DedupMembership | src/AotObjectMapper.Mapper/Extensions/ITypeSymbolExtensions.cs:18-27 | The seen-set filter yields exactly the accepted properties not already seen |
| TypeSymbolExtensions.DedupDistinct | src/AotObjectMapper.Mapper/Extensions/ITypeSymbolExtensions.cs:18-27 | The seen-set filter never yields a property twice |
| TypeSymbolExtensions.DedupKeepsOrder | src/AotObjectMapper.Mapper/Extensions/ITypeSymbolExtensions.cs:18-27 | The filter keeps the walk's order (a subsequence) |
| TypeSymbolExtensions.ReadablePropertiesCharacterized | src/AotObjectMapper.Mapper/Extensions/ITypeSymbolExtensions.cs:12-29 | The result holds every property with a getter declared on the type or a base, and nothing else. Each appears once, in walk order (derived first) |
| TypeSymbolExtensions.SettablePropertiesCharacterized | src/AotObjectMapper.Mapper/Extensions/ITypeSymbolExtensions.cs:31-48 | The same for properties with a setter |
| TypeSymbolExtensions.IsSimpleType | src/AotObjectMapper.Mapper/Extensions/ITypeSymbolExtensions.cs:50-79 | Fails only for a Nullable<T> without a type argument. Otherwise the type, or the T under Nullable<T>, is simple exactly when it is one of the listed special types, an enum, or one of the named System types |
| TypeSymbolExtensions.NullableSimpleIffUnderlying | src/AotObjectMapper.Mapper/Extensions/ITypeSymbolExtensions.cs:53-57 | `T?` is simple exactly when T is (one layer unwrapped) |
| TypeSymbolExtensions.InitializersOf | src/AotObjectMapper.Mapper/Extensions/ITypeSymbolExtensions.cs:111 | There is one initializer for each required settable property, and no other initializer |
| TypeSymbolExtensions.Initializers | src/AotObjectMapper.Mapper/Extensions/ITypeSymbolExtensions.cs:111 | The initializers are exactly those for the required settable properties the type declares |
| TypeSymbolExtensions.TryGetBlankTypeConstructor | src/AotObjectMapper.Mapper/Extensions/ITypeSymbolExtensions.cs:81-117 | Nothing for a non-named type. Otherwise it finds exactly when there is a factory method or a public parameterless constructor. A factory wins: the factory is called with `(ctx)` when it takes the context, and then the context is its one argument. Otherwise the result is `new` with every required member initialized. Not found means empty text and no arguments |
| InheritanceUtils.Supertypes | src/AotObjectMapper.Mapper/Utils/InheritanceUtils.cs:16-31 | A type is filed under its base (unless that base is System.Object) and then under each of its direct interfaces |
| InheritanceUtils.SubtypesOfSnoc | src/AotObjectMapper.Mapper/Utils/InheritanceUtils.cs:13-32 | Adding a type at the end adds it to a key's list once per time that type names the key |
| InheritanceUtils.FileUnderAllLookup | src/AotObjectMapper.Mapper/Utils/InheritanceUtils.cs:18-31 | The TryGetValue/Add step appends the type to each named key's list, once per naming, and never creates an empty list |
| InheritanceUtils.BuildPolymorphismMapLookup | src/AotObjectMapper.Mapper/Utils/InheritanceUtils.cs:9-35 | Key by key, the built map equals the independent description SubtypesOf: the input types filed under the key, in input order. No key maps to an empty list |
| InheritanceUtils.PolymorphismMapCharacterized | src/AotObjectMapper.Mapper/Utils/InheritanceUtils.cs:9-35 | A key is present exactly when some input type is filed under it, and its list is that description |
| InheritanceUtils.SubtypesOfContains | src/AotObjectMapper.Mapper/Utils/InheritanceUtils.cs:13-32 | An input type is listed under each of its supertypes |
| InheritanceUtils.SubtypesOfNamed | src/AotObjectMapper.Mapper/Utils/InheritanceUtils.cs:13-32 | A non-empty list comes from an input type that names the key |
| InheritanceUtils.ListedUnderBase | src/AotObjectMapper.Mapper/Utils/InheritanceUtils.cs:16-22 | Every input type whose base is not System.Object is listed under that base |
| InheritanceUtils.ListedUnderInterface | src/AotObjectMapper.Mapper/Utils/InheritanceUtils.cs:25-31 | Every input type is listed under each interface it declares directly |
| InheritanceUtils.KeysAreSupertypes | src/AotObjectMapper.Mapper/Utils/InheritanceUtils.cs:9-35 | Every key is the base or a direct interface of some input type |
| InheritanceUtils.CreatePolymorphismMap | src/AotObjectMapper.Mapper/Utils/InheritanceUtils.cs:9-35 | The loop builds exactly BuildPolymorphismMap of the input |
| InheritanceUtils.TryGetConvertibleInfo | src/AotObjectMapper.Mapper/Utils/InheritanceUtils.cs:37-65 | False with no underlying type when IConvertible is unknown. For Nullable<T>: throws without a type argument; otherwise can-be-null, with T as the underlying type, convertible when T implements IConvertible. Otherwise convertible exactly when the type implements IConvertible, and can-be-null exactly for an annotated reference type |
| LegacyInheritanceUtils.CreatePolymorphismMap | src/AotObjectMapper.Mapper/InheritanceUtils.cs:8-34 | The older loop builds the same map as the newer one |
| GeneratorUtils.ConvertMethodsCoverSimpleTypes | src/AotObjectMapper.Mapper/Utils/GeneratorUtils.cs:11-29 | The Convert table covers exactly the fifteen special types IsSimpleType accepts |
| GeneratorUtils.ConvertMethodsAreConversions | src/AotObjectMapper.Mapper/Utils/GeneratorUtils.cs:11-29 | Every entry names a `Convert.To…` method; object has none |
| GeneratorUtils.EnumArmsFailure | src/AotObjectMapper.Mapper/Utils/GeneratorUtils.cs:36-42 | The destination field lookup throws exactly when some const source field's name occurs more than once among the destination fields |
| GeneratorUtils.NamePresent | src/AotObjectMapper.Mapper/Utils/GeneratorUtils.cs:38-40 | A destination name counts as present exactly when a field carries it |
| GeneratorUtils.EnumArmsSelectsMatchingFields | src/AotObjectMapper.Mapper/Utils/GeneratorUtils.cs:31-52 | There is one arm per const source field whose name the destination declares, in source order |
| GeneratorUtils.BuildEnumSwitch | src/AotObjectMapper.Mapper/Utils/GeneratorUtils.cs:31-52 | The loop builds exactly the switch text, in the given type spelling |
| GeneratorUtils.EnumMapSwitchStatement | src/AotObjectMapper.Mapper/Utils/GeneratorUtils.cs:31-52 | The switch with `global::`-qualified arms, ending in EnumMissingFieldException or `default` |
| GeneratorUtils.FirstWithTypeArgCharacterized | src/AotObjectMapper.Mapper/Utils/GeneratorUtils.cs:67-75 | FirstOrDefault on the k-th type argument fails at the first attribute before any match whose argument is missing. Otherwise it finds the first attribute whose argument equals the type |
| GeneratorUtils.ArmsTextEmpty | src/AotObjectMapper.Mapper/Utils/GeneratorUtils.cs:54-133 | The arms' text is empty exactly when there are no candidates |
| GeneratorUtils.FindFirst | src/AotObjectMapper.Mapper/Utils/GeneratorUtils.cs:67-85 | The lookup loop with `break` finds the first match |
| GeneratorUtils.AppendCandidates | src/AotObjectMapper.Mapper/Utils/GeneratorUtils.cs:67-85 | One subtype's `sb.Append`s extend the text by that subtype's arms, numbered on from the counter |
| GeneratorUtils.AppendDispatchArms | src/AotObjectMapper.Mapper/Utils/GeneratorUtils.cs:63-86 | The nested loops with the arm counter build exactly DispatchText |
| GeneratorUtils.NoInstanceTypeMapSwitchStatement | src/AotObjectMapper.Mapper/Utils/GeneratorUtils.cs:54-93 | The empty string without subtypes; otherwise a switch over the candidates that ends with the UnhandledPolymorphicTypeException arm; any failure of the lookups is propagated |
| GeneratorUtils.InstanceTypeMapSwitchStatement | src/AotObjectMapper.Mapper/Utils/GeneratorUtils.cs:95-133 | False without subtypes; otherwise true with one `if` per candidate |
| GeneratorUtils.ArmsForSound | src/AotObjectMapper.Mapper/Utils/GeneratorUtils.cs:65-86 | A subtype's candidates are backed by a Map attribute for it, or by a UseMap attribute for it that names the mapper called |
| GeneratorUtils.ArmsForComplete | src/AotObjectMapper.Mapper/Utils/GeneratorUtils.cs:65-86 | A matching Map attribute yields a Map arm, and a matching UseMap attribute yields a mapper arm |
| GeneratorUtils.DispatchArmsSound | src/AotObjectMapper.Mapper/Utils/GeneratorUtils.cs:54-133 | Every candidate is for a listed subtype and backed by its attribute |
| GeneratorUtils.DispatchArmsComplete | src/AotObjectMapper.Mapper/Utils/GeneratorUtils.cs:54-133 | Every listed subtype with a matching attribute gets its candidate |
| GeneratorUtils.BindersDistinct | src/AotObjectMapper.Mapper/Utils/GeneratorUtils.cs:71-82 | The pattern variables `t0`, `t1`, … of different arms never clash |
| GeneratorUtils.FirstNameWhereCharacterized | src/AotObjectMapper.Mapper/Utils/GeneratorUtils.cs:157-193 | The scan names nothing exactly when no property qualifies, and otherwise names the first qualifying property |
| GeneratorUtils.ScanProviderAttributes | src/AotObjectMapper.Mapper/Utils/GeneratorUtils.cs:167-190 | The attribute loop reports an override exactly when the property carries `UseFormatProvider<S, D>` for this conversion. Otherwise it keeps the first default-provider name seen |
| GeneratorUtils.ScanProviderProperty | src/AotObjectMapper.Mapper/Utils/GeneratorUtils.cs:159-166 | A property that is not a static IFormatProvider is skipped and leaves the default name alone. Otherwise it is an override exactly when it is a provider for this conversion |
| GeneratorUtils.GetFormatProviderExpression | src/AotObjectMapper.Mapper/Utils/GeneratorUtils.cs:135-194 | The property scan with its early return picks the first provider for this conversion, or else the first default provider, or else nothing. It picks nothing when IFormatProvider is unknown |
| GeneratorUtils.NullableSourceSameProvider | src/AotObjectMapper.Mapper/Utils/GeneratorUtils.cs:140-148 | A Nullable<T> source selects the same provider as T |
| GeneratorUtils.SpecificBeatsDefault | src/AotObjectMapper.Mapper/Utils/GeneratorUtils.cs:135-194 | If any property is a provider for exactly this conversion, that kind of provider is chosen (the first one), wherever a default is declared |
| LegacyUtils.BlankTypeConstructor | src/AotObjectMapper.Mapper/Utils.cs:31-32 | The older blank constructor is an object creation `new …` without any constructor check |
| LegacyUtils.BlankConstructorAgreesWithNewer | src/AotObjectMapper.Mapper/Utils.cs:31-32 | For a type with a public parameterless constructor and no factory, the newer code finds a constructor and writes the same text, qualified with `global::` |
| LegacyUtils.EnumMapSwitchStatement | src/AotObjectMapper.Mapper/Utils.cs:34-55 | The same switch as the newer copy, with unqualified arms |
| LegacyUtils.NoInstanceTypeMapSwitchStatement | src/AotObjectMapper.Mapper/Utils.cs:57-96 | The same candidates with the older unqualified spelling, ending with the fixed-text exception arm |
| LegacyUtils.InstanceTypeMapSwitchStatement | src/AotObjectMapper.Mapper/Utils.cs:98-131 | The empty string without subtypes; otherwise the if-chain |
| LegacyUtils.EmptyChainIffNoCandidates | src/AotObjectMapper.Mapper/Utils.cs:98-131 | The older if-chain is empty exactly when there is nothing to dispatch |
| MethodGenerationInfo.FindByName | src/AotObjectMapper.Mapper/MapperInfo/MethodGenerationInfo.cs:138-148 | A dictionary lookup by name finds a property with that name, and finds nothing exactly when no property has it |
| MethodGenerationInfo.ToDictionaryByNameAgrees | src/AotObjectMapper.Mapper/MapperInfo/MethodGenerationInfo.cs:115 | `ToDictionary(p => p.Name)` succeeds exactly when the names are unique, and then equals the deduplicated dictionary |
| MethodGenerationInfo.OverriddenPropertyBreaksToDictionary | src/AotObjectMapper.Mapper/MapperInfo/MethodGenerationInfo.cs:114-115 | As written: a destination D : B where D overrides B's `Id` has readable properties [D.Id, B.Id], so ToDictionary throws a duplicate key. DistinctByName keeps D.Id |
| MethodGenerationInfo.DistinctByNameUnique | src/AotObjectMapper.Mapper/MapperInfo/MethodGenerationInfo.cs:115 | The corrected dictionary has unique names |
| MethodGenerationInfo.DistinctByNameSubset | src/AotObjectMapper.Mapper/MapperInfo/MethodGenerationInfo.cs:115 | The corrected dictionary holds only given properties |
| MethodGenerationInfo.DistinctByNameFinds | src/AotObjectMapper.Mapper/MapperInfo/MethodGenerationInfo.cs:115 | Every lookup in the corrected dictionary finds the most derived property of that name |
| MethodGenerationInfo.AsNamed | src/AotObjectMapper.Mapper/MapperInfo/MethodGenerationInfo.cs:85-87 | The `(INamedTypeSymbol)` cast succeeds exactly on named types and returns the type |
| MethodGenerationInfo.TypeMapsOf | src/AotObjectMapper.Mapper/MapperInfo/MethodGenerationInfo.cs:94-99 | One (source, destination) pair per Map attribute |
| MethodGenerationInfo.OptionsValue | src/AotObjectMapper.Mapper/MapperInfo/MethodGenerationInfo.cs:105-112 | A null argument means no options. An int in range decodes to its low five bits. An int out of range overflows |
| MethodGenerationInfo.StringsOf | src/AotObjectMapper.Mapper/MapperInfo/MethodGenerationInfo.cs:107 | IgnoredMembers keeps exactly the string values of the array |
| MethodGenerationInfo.GatherHooks | src/AotObjectMapper.Mapper/MapperInfo/MethodGenerationInfo.cs:119-127 | The pre-map, post-map and ForMember lists are exactly the methods whose attribute names (Source, Destination), in declaration order. The query lists are the methods with one attribute of that name. A factory method is one of the mapper's methods |
| MethodGenerationInfo.Gather | src/AotObjectMapper.Mapper/MapperInfo/MethodGenerationInfo.cs:83-132 | A constructed info has the mapper and the Map attribute's two types. Exactly one Map attribute of the mapper names that pair. The source properties are the readable ones, and the destination dictionary is the deduplicated readable ones. The hook lists are as in GatherHooks |
| MethodGenerationInfo.GatherDestinationDictionary | src/AotObjectMapper.Mapper/MapperInfo/MethodGenerationInfo.cs:114-115 | The destination dictionary has unique names and answers every lookup as the full readable walk would |
| MethodGenerationInfo.ProjectionText | src/AotObjectMapper.Mapper/MapperInfo/MethodGenerationInfo.cs:401-428 | An array projection ends in `.ToArray()` and a list projection ends in `.ToList()` |
| MethodGenerationInfo.UseMapFor | src/AotObjectMapper.Mapper/MapperInfo/MethodGenerationInfo.cs:269-271 | A UseMap attribute is taken only when its source and destination are the two types |
| MethodGenerationInfo.FirstUseMap | src/AotObjectMapper.Mapper/MapperInfo/MethodGenerationInfo.cs:269-271 | The mapper found maps between the two types |
| MethodGenerationInfo.FirstTypeMap | src/AotObjectMapper.Mapper/MapperInfo/MethodGenerationInfo.cs:296-300 | The pair found is a declared pair for the two types; nothing is found exactly when no pair matches |
| MethodGenerationInfo.EnumerableInterfaceElement | src/AotObjectMapper.Mapper/MapperInfo/MethodGenerationInfo.cs:389-396 | The element type is found inside one of the interfaces |
| MethodGenerationInfo.ElementTypeOf | src/AotObjectMapper.Mapper/MapperInfo/MethodGenerationInfo.cs:369-399 | A string is not a sequence. An array gives its element type. Every element type found is strictly smaller than the collection type |
| MethodGenerationInfo.ProjectionPlan | src/AotObjectMapper.Mapper/MapperInfo/MethodGenerationInfo.cs:401-428 | A projection exists exactly for an IEnumerable, array or list destination, with that shape. The queries chosen are methods whose query attribute names the two element types |
| MethodGenerationInfo.UseMapStep | src/AotObjectMapper.Mapper/MapperInfo/MethodGenerationInfo.cs:269-293 | Without PreserveReferences: a direct call to the other mapper. With it: GetOrMapObject through a blank constructor, or AOM207 and no assignment when there is none |
| MethodGenerationInfo.TypeMapStep | src/AotObjectMapper.Mapper/MapperInfo/MethodGenerationInfo.cs:296-320 | The same for the mapper's own Map of a declared pair |
| MethodGenerationInfo.EnumStep | src/AotObjectMapper.Mapper/MapperInfo/MethodGenerationInfo.cs:323-331 | The enum step reports no diagnostics and, when it succeeds, always assigns. Under MapEnumsByValue it always succeeds |
| MethodGenerationInfo.EnumStepText | src/AotObjectMapper.Mapper/MapperInfo/MethodGenerationInfo.cs:323-331 | Under MapEnumsByValue the step writes a `global::`-qualified cast. Otherwise it writes the name switch of EnumMapSwitchStatement and fails exactly when that switch does |
| MethodGenerationInfo.Preferred | src/AotObjectMapper.Mapper/MapperInfo/MethodGenerationInfo.cs:261-331 | The first four strategies in order: exact type, then UseMap, then own Map, then enum-to-enum. Each is taken only when every earlier one does not apply. Nothing applies exactly when none does. At most one AOM207 |
| MethodGenerationInfo.ConvertibleStep | src/AotObjectMapper.Mapper/MapperInfo/MethodGenerationInfo.cs:344-363 | A conversion is produced only under AllowIConvertable, through a method from the Convert table |
| MethodGenerationInfo.ResolveCollectionsAndConversionsLast | src/AotObjectMapper.Mapper/MapperInfo/MethodGenerationInfo.cs:258-367 | A collection projection or a conversion is chosen only when none of the four preferred strategies applies, and a conversion only under AllowIConvertable |
| MethodGenerationInfo.ExactMatchText | src/AotObjectMapper.Mapper/MapperInfo/MethodGenerationInfo.cs:261-266 | Equal types copy the source expression, with ` ?? default!` for a nullable source under SuppressNullWarnings |
| MethodGenerationInfo.ResolveReportsAtMostOneMissingConstructor | src/AotObjectMapper.Mapper/MapperInfo/MethodGenerationInfo.cs:258-367 | Resolving one member reports nothing but AOM207, and at most once |
| MethodGenerationInfo.WithThrowFlagFlipped | src/AotObjectMapper.Mapper/MapperInfo/MethodGenerationInfo.cs:112 | The info with ThrowExceptionOnUnmappedEnum switched |
| MethodGenerationInfo.PreferredIgnoresThrowFlag | src/AotObjectMapper.Mapper/MapperInfo/MethodGenerationInfo.cs:323-331 | Under MapEnumsByValue the throw flag does not change the preferred strategies |
| MethodGenerationInfo.ThrowFlagIrrelevantUnderMapByValue | src/AotObjectMapper.Mapper/MapperInfo/MethodGenerationInfo.cs:258-367 | Under MapEnumsByValue the throw flag does not change any resolution, collections included |
| MethodGenerationInfo.CollectionStepIgnoresThrowFlag | src/AotObjectMapper.Mapper/MapperInfo/MethodGenerationInfo.cs:334-341 | Under MapEnumsByValue the throw flag does not change a collection projection |
| MethodGenerationInfo.StringIsNotASequence | src/AotObjectMapper.Mapper/MapperInfo/MethodGenerationInfo.cs:334-363 | A string source is never projected; it goes straight to the IConvertible step |
| MethodGenerationInfo.MatchByName | src/AotObjectMapper.Mapper/MapperInfo/MethodGenerationInfo.cs:138-148 | The name-matching loop computes NameMatched over the source properties |
| MethodGenerationInfo.ApplyForMembers | src/AotObjectMapper.Mapper/MapperInfo/MethodGenerationInfo.cs:150-239 | The ForMember loop, with its `hasError` flag, computes ForMembers over the ForMember methods |
| MethodGenerationInfo.CheckSignature | src/AotObjectMapper.Mapper/MapperInfo/MethodGenerationInfo.cs:164-233 | The checks report AOM104, AOM101 (first and second parameter) and AOM100 in order. `hasError` is set exactly when one of them fails |
| MethodGenerationInfo.FillRequired | src/AotObjectMapper.Mapper/MapperInfo/MethodGenerationInfo.cs:241-253 | The `null!` loop computes NullFill |
| MethodGenerationInfo.GeneratePropertyAssignments | src/AotObjectMapper.Mapper/MapperInfo/MethodGenerationInfo.cs:134-256 | The method computes PropertyAssignments: the name-matched entries, then the ForMember entries, then the `null!` fill |
| MethodGenerationInfo.NameMatchStepCharacterized | src/AotObjectMapper.Mapper/MapperInfo/MethodGenerationInfo.cs:138-148 | A source property produces no entry when its destination namesake is missing or ignored. Otherwise it produces exactly the resolver's assignment and diagnostics |
| MethodGenerationInfo.NameMatchedSound | src/AotObjectMapper.Mapper/MapperInfo/MethodGenerationInfo.cs:138-148 | Every name-matched entry is for a non-ignored destination property named like some source property |
| MethodGenerationInfo.NameMatchedComplete | src/AotObjectMapper.Mapper/MapperInfo/MethodGenerationInfo.cs:138-148 | Every source property with a non-ignored namesake that resolves gets its entry |
| MethodGenerationInfo.ForMemberStepCharacterized | src/AotObjectMapper.Mapper/MapperInfo/MethodGenerationInfo.cs:150-239 | A ForMember method naming no destination property reports AOM201. A failed check assigns nothing. A clean method assigns `Name(src)` or `Name(src, ctx)` |
| MethodGenerationInfo.SignatureFailuresReported | src/AotObjectMapper.Mapper/MapperInfo/MethodGenerationInfo.cs:164-233 | Each failed check has its diagnostic: AOM104 per location, AOM101 for a wrong parameter, and AOM100 last for a wrong return type |
| MethodGenerationInfo.NullFillCharacterized | src/AotObjectMapper.Mapper/MapperInfo/MethodGenerationInfo.cs:241-253 | For distinct properties, each required property not yet assigned gets exactly one `null!` entry, and nothing else is filled |
| MethodGenerationInfo.NullWarningsFill | src/AotObjectMapper.Mapper/MapperInfo/MethodGenerationInfo.cs:134-256 | The plan starts with the name-matched and ForMember entries. There is no fill without SuppressNullWarnings. With it, every required unassigned destination property gets exactly one `null!` |
| LegacyMethodGenerationInfo.PairMatch | src/AotObjectMapper.Mapper/MethodGenerationInfo.cs:90-96 | The type-argument check holds exactly when the first two type arguments are the pair, and it can throw only with fewer than two |
| LegacyMethodGenerationInfo.FiltersExact | src/AotObjectMapper.Mapper/MethodGenerationInfo.cs:90-132 | The Map and hook filters accept exactly the attributes of their name that name the pair |
| LegacyMethodGenerationInfo.MethodsOf | src/AotObjectMapper.Mapper/MethodGenerationInfo.cs:346-350 | The methods of the MapMethodInfo records, in order |
| LegacyMethodGenerationInfo.HookOf | src/AotObjectMapper.Mapper/MethodGenerationInfo.cs:100-132 | A method yields a hook exactly when one of its attributes of the name names the pair; the record holds that attribute |
| LegacyMethodGenerationInfo.HookMethods | src/AotObjectMapper.Mapper/MethodGenerationInfo.cs:100-132 | The hook list is exactly the methods with one such attribute, in order, each with its attribute |
| LegacyMethodGenerationInfo.GatherSettings | src/AotObjectMapper.Mapper/MethodGenerationInfo.cs:134-149 | The source properties are the readable ones, and the destination dictionary is the deduplicated readable ones |
| LegacyMethodGenerationInfo.Gather | src/AotObjectMapper.Mapper/MethodGenerationInfo.cs:69-167 | The older constructor: the three types must be named, exactly one Map attribute names the pair, and the hook lists are as in HookMethods |
| LegacyMethodGenerationInfo.SelectSuffix | src/AotObjectMapper.Mapper/MethodGenerationInfo.cs:329-343 | The older projection is `.Select(x => …)` followed by `.ToArray()`, `.ToList()` or nothing |
| LegacyMethodGenerationInfo.SelectSuffixIsNewerProjectionWithoutQueries | src/AotObjectMapper.Mapper/MethodGenerationInfo.cs:329-343 | It is the newer projection with no pre- or post-map query |
| LegacyMethodGenerationInfo.EnumStep | src/AotObjectMapper.Mapper/MethodGenerationInfo.cs:251-259 | An unqualified cast under MapEnumsByValue; otherwise the switch |
| LegacyMethodGenerationInfo.Preferred | src/AotObjectMapper.Mapper/MethodGenerationInfo.cs:213-259 | The same four strategies in the same order as the newer code. GetOrMapObject is used exactly under PreserveReferences |
| LegacyMethodGenerationInfo.ResolveCollectionsAndConversionsLast | src/AotObjectMapper.Mapper/MethodGenerationInfo.cs:210-295 | A projection or a conversion only when no preferred strategy applies. A projection has the destination's shape, and a conversion requires AllowIConvertable |
| LegacyMethodGenerationInfo.PreservedNestedMapsAlwaysAssign | src/AotObjectMapper.Mapper/MethodGenerationInfo.cs:221-248 | Under PreserveReferences a nested map always goes through GetOrMapObject, with no constructor check |
| LegacyMethodGenerationInfo.ExactMatchText | src/AotObjectMapper.Mapper/MethodGenerationInfo.cs:213-218 | Equal types copy the source, with ` ?? default!` under SuppressNullWarnings |
| LegacyMethodGenerationInfo.MatchByName | src/AotObjectMapper.Mapper/MethodGenerationInfo.cs:173-183 | The name-matching loop computes NameMatched |
| LegacyMethodGenerationInfo.ApplyForMembers | src/AotObjectMapper.Mapper/MethodGenerationInfo.cs:185-191 | The ForMember loop computes ForMembers |
| LegacyMethodGenerationInfo.GeneratePropertyAssignments | src/AotObjectMapper.Mapper/MethodGenerationInfo.cs:169-208 | The method computes the name-matched entries, the ForMember entries and the `null!` fill |
| LegacyMethodGenerationInfo.ForMemberStepCharacterized | src/AotObjectMapper.Mapper/MethodGenerationInfo.cs:185-191 | A ForMember method naming a destination property always assigns its call, with no signature check. A method naming none is skipped silently |
| LegacyMethodGenerationInfo.ForMembersSound | src/AotObjectMapper.Mapper/MethodGenerationInfo.cs:185-191 | Every ForMember entry is the call of a ForMember method, for the property it names |
| LegacyMethodGenerationInfo.NullWarningsFill | src/AotObjectMapper.Mapper/MethodGenerationInfo.cs:193-205 | The fill is the same as in the newer code |
| IndentedStringBuilder.RepeatLength | src/AotObjectMapper.Mapper/Utils/IndentedStringBuilder.cs:90-93 | The indentation written before a line is IndentLevel copies of the indent string, so it is IndentLevel times as long |
| IndentedStringBuilder.WrittenAppend | src/AotObjectMapper.Mapper/Utils/IndentedStringBuilder.cs:100-115 | Two Appends write what one Append of the concatenation writes |
| IndentedStringBuilder.WrittenMidLine | src/AotObjectMapper.Mapper/Utils/IndentedStringBuilder.cs:100-115 | Within a line only the characters are written |
| IndentedStringBuilder.WrittenLine | src/AotObjectMapper.Mapper/Utils/IndentedStringBuilder.cs:86-115 | A line begun at the start of a line gets the indentation once, before its first character |
| IndentedStringBuilder.WrittenFirst | src/AotObjectMapper.Mapper/Utils/IndentedStringBuilder.cs:105-112 | Characters are written front to back, each with indentation only when it opens a line |
| IndentedStringBuilder.WrittenNewline | src/AotObjectMapper.Mapper/Utils/IndentedStringBuilder.cs:110-111 | A newline is written as is, and the next character opens a line |
| IndentedStringBuilder.StringBuffer.constructor | src/AotObjectMapper.Mapper/Utils/IndentedStringBuilder.cs:19 | A new StringBuilder is empty |
| IndentedStringBuilder.StringBuffer.Append | src/AotObjectMapper.Mapper/Utils/IndentedStringBuilder.cs:92 | The text grows by the string |
| IndentedStringBuilder.StringBuffer.AppendLine | src/AotObjectMapper.Mapper/Utils/IndentedStringBuilder.cs:120 | The text grows by a newline |
| IndentedStringBuilder.StringBuffer.Clear | src/AotObjectMapper.Mapper/Utils/IndentedStringBuilder.cs:143 | The text becomes empty |
| IndentedStringBuilder.Builder.Over | src/AotObjectMapper.Mapper/Utils/IndentedStringBuilder.cs:23-27 | The builder writes to the caller's buffer, at the start of a line, at level 0 |
| IndentedStringBuilder.Builder.Create | src/AotObjectMapper.Mapper/Utils/IndentedStringBuilder.cs:17-21 | A fresh empty buffer, or ArgumentNullException exactly for a null indent string |
| IndentedStringBuilder.Builder.CreateOver | src/AotObjectMapper.Mapper/Utils/IndentedStringBuilder.cs:23-27 | Over the given buffer, or ArgumentNullException exactly for a null indent string |
| IndentedStringBuilder.Builder.WriteIndentIfNeeded | src/AotObjectMapper.Mapper/Utils/IndentedStringBuilder.cs:86-97 | At the start of a line it writes IndentLevel copies of the indent string; it is then mid-line |
| IndentedStringBuilder.Builder.Append | src/AotObjectMapper.Mapper/Utils/IndentedStringBuilder.cs:100-115 | Null or empty writes nothing. Otherwise the buffer gains the characters with the indentation before each line opening, and the at-start flag follows the last character. The level is unchanged |
| IndentedStringBuilder.Builder.AppendEmptyLine | src/AotObjectMapper.Mapper/Utils/IndentedStringBuilder.cs:118-123 | A newline without indentation; the next character opens a line |
| IndentedStringBuilder.Builder.AppendLine | src/AotObjectMapper.Mapper/Utils/IndentedStringBuilder.cs:126-132 | Append of the value, then a newline |
| IndentedStringBuilder.Builder.ToString | src/AotObjectMapper.Mapper/Utils/IndentedStringBuilder.cs:135-138 | The buffer's text |
| IndentedStringBuilder.Builder.Clear | src/AotObjectMapper.Mapper/Utils/IndentedStringBuilder.cs:141-146 | An empty buffer, at the start of a line, at level 0 |
| IndentedStringBuilder.Builder.Indent | src/AotObjectMapper.Mapper/Utils/IndentedStringBuilder.cs:29-32 | A new undisposed scope on this builder, one level deeper, with nothing written |
| IndentedStringBuilder.Builder.IndentBlock | src/AotObjectMapper.Mapper/Utils/IndentedStringBuilder.cs:55-58 | The header and open lines at the current level, then one level deeper |
| IndentedStringBuilder.IndentScope.constructor | src/AotObjectMapper.Mapper/Utils/IndentedStringBuilder.cs:39-43 | The parent's level goes up by one |
| IndentedStringBuilder.IndentScope.Dispose | src/AotObjectMapper.Mapper/Utils/IndentedStringBuilder.cs:45-52 | The first Dispose lowers the level by one; later ones change nothing |
| IndentedStringBuilder.IndentBlockScope.constructor | src/AotObjectMapper.Mapper/Utils/IndentedStringBuilder.cs:66-73 | The header and open lines are written, then the level goes up by one |
| IndentedStringBuilder.IndentBlockScope.Dispose | src/AotObjectMapper.Mapper/Utils/IndentedStringBuilder.cs:75-83 | The first Dispose lowers the level and writes the close line at the outer level; later ones change nothing |
| PreferNameOfAnalyzer.ParamArgument | src/AotObjectMapper.Mapper/Analyzers/PreferNameOfAnalyzer.cs:64-72 | The type argument of the first type parameter with the name; nothing exactly when no type parameter has it |
| PreferNameOfAnalyzer.ContainingChain | src/AotObjectMapper.Mapper/Analyzers/PreferNameOfAnalyzer.cs:89-105 | A type, then its containing types innermost first, ending at the outermost |
| PreferNameOfAnalyzer.ScopesOf | src/AotObjectMapper.Mapper/Analyzers/PreferNameOfAnalyzer.cs:89-105 | The type-parameter lists of the chain, in order |
| PreferNameOfAnalyzer.FirstMatchCharacterized | src/AotObjectMapper.Mapper/Analyzers/PreferNameOfAnalyzer.cs:62-105 | No target exactly when no scope declares the name. Otherwise the target is the first declaring scope's argument |
| PreferNameOfAnalyzer.MethodTypeParametersFirst | src/AotObjectMapper.Mapper/Analyzers/PreferNameOfAnalyzer.cs:62-78 | A method's own type parameters win. Otherwise the lookup is the containing type's. Without a containing type there is no target |
| PreferNameOfAnalyzer.ContainingTypesInnermostFirst | src/AotObjectMapper.Mapper/Analyzers/PreferNameOfAnalyzer.cs:89-105 | A type's own type parameters win over those of its containing types; the search ends with nothing at the outermost type |
| PreferNameOfAnalyzer.ScopesOfCons | src/AotObjectMapper.Mapper/Analyzers/PreferNameOfAnalyzer.cs:89-105 | The first scope is the type's own; the rest are the containing type's |
| PreferNameOfAnalyzer.NoTargetWithoutDeclaration | src/AotObjectMapper.Mapper/Analyzers/PreferNameOfAnalyzer.cs:55-87 | A name no scope declares, or a non-string argument, gives no target |
| PreferNameOfAnalyzer.MatchTypeParameter | src/AotObjectMapper.Mapper/Analyzers/PreferNameOfAnalyzer.cs:64-72 | The index loop computes ParamArgument |
| PreferNameOfAnalyzer.ResolveFromContainingType | src/AotObjectMapper.Mapper/Analyzers/PreferNameOfAnalyzer.cs:89-105 | The loop over containing types computes the first match over the chain's scopes |
| PreferNameOfAnalyzer.ResolveTargetType | src/AotObjectMapper.Mapper/Analyzers/PreferNameOfAnalyzer.cs:55-87 | The method computes TargetType: it throws without a constructor argument, finds nothing for a non-string argument, and otherwise looks the name up scope by scope |
| PreferNameOfAnalyzer.AnalyzeArgumentOperation | src/AotObjectMapper.Mapper/Analyzers/PreferNameOfAnalyzer.cs:21-53 | Nothing without a parameter, without PreferNameOf or without a string literal. It throws exactly when the attribute has no argument. It reports exactly when the target type has an accessible member of the literal's name, and the report is AOM202 with the type's name and the member name |

## Left out

- Roslyn itself is not part of this model: symbols are plain values. This leaves out syntax trees, diagnostic locations, `Compilation` lookups beyond IConvertible and IFormatProvider, and the incremental-generator pipeline that emits files.
- The code-fix providers, the other analyzers, the mapper-level code writer (namespaces, `using` lines, method headers) and the generated `Map` methods' text are not part of this model. The context's populate step stands in for generated code.
- The ForMember lookup of a method's declaration syntax, which is used only for diagnostic locations, is not modelled. Its `locations` is a count.
- ConcurrentMapperContext is not part of this model.
- The DEBUG counters TotalMaps and TotalReferencedObjects, and DebugString, are not modelled.
- ContextBase.MapperContextBase.GetOrMapObject: a failure does not restore the depth. The generated code has no `try/finally`, so after MaxMapDepthException the context's depth is left where it was. The model keeps this and proves nothing about the context after a failure.
- ContextBase.MapperContextBase.GetOrMapObject: both overloads (initializer with and without the context) are one method, because the initializer's result is the only thing that matters here.
- ContextBase.MapperContextBase.GetOrMapObject: success and failure are each given by a sufficient condition, not an exact one. Success is promised when the depth plus the number of unmapped sources is within the limit. Failure is promised when the chain of uncached first members goes past it. A wide but shallow walk, or a deep chain through later members, lies between the two and has no promise either way.
- MethodGenerationInfo.Gather, LegacyMethodGenerationInfo.GatherSettings, LegacyMethodGenerationInfo.Gather: the by-name dictionary of the destination's readable properties is built with the corrected `DistinctByName`. The source's `ToDictionary(p => p.Name)` throws ArgumentException on a duplicate name, which happens when a property is overridden (see "## Findings"). So these constructors never fail with DuplicateKey as the source can. `MethodGenerationInfo.ToDictionaryByName` models the throwing call, and `MethodGenerationInfo.ToDictionaryByNameAgrees` proves the two agree whenever the names are unique.
- Context.MapperContext.GetOrMapObject: with the reversed limit check, success is proved only where the limit is not above the depth.
- Fault kinds are approximated. NullReference, InvalidCast, IndexOutOfRange, Overflow, DuplicateKey and InvalidOperation stand for the .NET exceptions, and messages are not modelled.
- IndentedStringBuilder: `Environment.NewLine` is the fixed `"\n"`. `IndentLevel` is an unbounded integer, so its 32-bit overflow is not modelled. The public `IndentLevel` setter is not modelled as an operation; only the scopes and Clear change the level.
- IndentedStringBuilder.Builder.Append: the C# `string?` null is `None`.
- The legacy Utils.cs copies of ConvertMethods, IsSimpleType, TryGetConvertibleInfo, GetFormatProviderExpression, GetAllReadableProperties and GetAllSetableProperties are the same code as the newer copies. The model uses the newer members rather than repeating them.
- MethodGenerationInfo.ConvertibleStep: only the AllowIConvertable and SuppressNullWarnings options are read, as in the source. The null-guard text choice is modelled, but the contract states only which strategy is chosen and that the method comes from the Convert table.
- PreferNameOfAnalyzer.AnalyzeArgumentOperation: accessibility (`IsAccessibleWithin`) is reduced to a per-member `accessible` flag. `GetMembers(name)` counts only properties, fields and methods. The report carries the target's `Name`, not the minimally qualified display string, so type arguments and keyword aliases are not modelled.
- ObjectGraph: source objects are node identifiers, and a source's reference members are its list of child nodes. Value members and member names are not modelled at runtime.

## Findings

| source | as written | input that shows it | evidently intended | confidence | as-written member | corrected member |
|---|---|---|---|---|---|---|
| src/AotObjectMapper.Abstractions/Models/MapperContext.cs:73 | `IncrementDepth` throws when `MaxDepth > Depth`, the reverse of the base class's `Depth >= MaxDepth` | `new MapperContext(maxDepth: 2)` at depth 0: the first map throws MaxMapDepthException | Throw once the depth has reached the limit, as MapperContextBase.cs:62 does, so depths 1 and 2 are allowed | not executed | Context.MapWithMaxDepthTwoRefused | ContextBase.MapWithMaxDepthTwo |
| src/AotObjectMapper.Mapper/MapperInfo/MethodGenerationInfo.cs:115 | `ToDictionary(p => p.Name)` over the readable properties of the whole base chain; the same code is at src/AotObjectMapper.Mapper/MethodGenerationInfo.cs:149 | A destination `D : B` where `D` overrides `B`'s `Id`: both `D.Id` and `B.Id` are walked, so ToDictionary throws ArgumentException (duplicate key) | One entry per name, the most derived property | not executed | MethodGenerationInfo.OverriddenPropertyBreaksToDictionary | MethodGenerationInfo.DistinctByNameFinds |
