/** MethodGenerationInfo (MapperInfo/MethodGenerationInfo.cs): what the
    generator knows about one `[Map<TSource, TDestination>]` of a mapper
    class, and the assignment plan it derives from it.

    The constructor's LINQ chains are `Gather`; the plan is a first-match
    chain per destination property (`Resolve`), whose choice is a value of
    `Assignment` and whose C# text is `Render` of that value; the three
    loops of GeneratePropertyAssignments are a method proved equal to
    `PropertyAssignments`.  Reported diagnostics are values collected in
    order next to the result; exceptions the code lets escape are
    `Failure`s. */
module MethodGenerationInfo {
  import opened Wrappers
  import opened Symbols
  import MappingOptions
  import InheritanceUtils
  import TypeSymbolExtensions
  import opened RoslynExtensions
  import GeneratorUtils

  // ---------------------------------------------------------------------
  // Names the generator looks for

  const MapAttributeName := "MapAttribute"
  const UseMapAttributeName := "UseMapAttribute"
  const GenerateMapperAttributeName := "GenerateMapperAttribute"
  const PreMapAttributeName := "PreMapAttribute"
  const PostMapAttributeName := "PostMapAttribute"
  const PreMapQueryAttributeName := "PreMapQueryAttribute"
  const PostMapQueryAttributeName := "PostMapQueryAttribute"
  const UseFactoryAttributeName := "UseFactoryAttribute"
  const ForMemberAttributeName := "ForMemberAttribute"
  const MapperContextBaseName := "AotObjectMapper.Abstractions.Models.MapperContextBase"

  /** The diagnostics the resolver reports, with their message arguments. */
  datatype Diagnostic =
    | AOM100(methodName: string, expectedReturnType: TypeSym)          // wrong return type
    | AOM101(position: string, methodName: string, expectedType: string) // wrong parameter
    | AOM104(methodName: string)                                        // not static
    | AOM201(memberName: string, destinationTypeName: string)           // no such member
    | AOM207(typeName: string)                                          // no usable constructor

  /** One entry of PossibleTypeMaps. */
  datatype TypePair = TypePair(source: TypeSym, destination: TypeSym)

  /** The fields the constructor fills before it plans the assignments. */
  datatype Info = Info(
    mapperType: TypeSym,
    sourceType: TypeSym,
    destinationType: TypeSym,
    mapAttribute: AttrData,
    maps: seq<AttrData>,
    otherMappers: seq<AttrData>,
    allMaps: seq<AttrData>,
    possibleTypeMaps: seq<TypePair>,
    polymorphableTypes: InheritanceUtils.PolymorphismMap,
    options: MappingOptions.Flags,
    ignoredMembers: seq<string>,
    sourceProperties: seq<PropSym>,
    destinationProperties: seq<PropSym>,   // the dictionary's values, in insertion order
    userDefinedMapperMethods: seq<MethodSym>,
    preMapMethods: seq<SymbolAttributeInfo<MethodSym>>,
    postMapMethods: seq<SymbolAttributeInfo<MethodSym>>,
    allPreMapQueries: seq<SymbolAttributeInfo<MethodSym>>,
    allPostMapQueries: seq<SymbolAttributeInfo<MethodSym>>,
    factoryMethod: Option<MethodSym>,
    forMemberMethods: seq<SymbolAttributeInfo<MethodSym>>)

  // ---------------------------------------------------------------------
  // The destination dictionary

  /** No two properties share a name: the keys of a Dictionary<string, IPropertySymbol>. */
  predicate UniqueNames(ps: seq<PropSym>) {
    forall i, j | 0 <= i < j < |ps| :: ps[i].name != ps[j].name
  }

  /** `TryGetValue(name, out var p)` over the dictionary's entries. */
  function FindByName(ps: seq<PropSym>, name: string): (r: Option<PropSym>)
    ensures r.Some? ==> r.value in ps && r.value.name == name
    ensures r.None? <==> forall i | 0 <= i < |ps| :: ps[i].name != name
  {
    if ps == [] then None
    else if ps[0].name == name then Some(ps[0])
    else
      var r := FindByName(ps[1..], name);
      assert forall i | 1 <= i < |ps| :: ps[i] == ps[1..][i - 1];
      r
  }

  /** `ToDictionary(p => p.Name)` as written: the properties in order, and
      an exception at the first name seen twice. */
  function ToDictionaryByName(ps: seq<PropSym>): Result<seq<PropSym>, Fault>
    decreases |ps|
  {
    if ps == [] then Success([])
    else
      var earlier :- ToDictionaryByName(ps[..|ps| - 1]);
      if FindByName(earlier, ps[|ps| - 1].name).Some? then Failure(DuplicateKey)
      else Success(earlier + [ps[|ps| - 1]])
  }

  /** The dictionary the generator needs: the first (most derived) property
      of each name, in walk order. */
  function DistinctByName(ps: seq<PropSym>): seq<PropSym>
    decreases |ps|
  {
    if ps == [] then []
    else
      var earlier := DistinctByName(ps[..|ps| - 1]);
      if FindByName(earlier, ps[|ps| - 1].name).Some? then earlier else earlier + [ps[|ps| - 1]]
  }

  /** DistinctByName keeps names unique. */
  lemma {:induction false} DistinctByNameUnique(ps: seq<PropSym>)
    ensures UniqueNames(DistinctByName(ps))
    decreases |ps|
  {
    if ps != [] {
      DistinctByNameUnique(ps[..|ps| - 1]);
    }
  }

  /** DistinctByName keeps only given properties. */
  lemma {:induction false} DistinctByNameSubset(ps: seq<PropSym>)
    ensures forall p | p in DistinctByName(ps) :: p in ps
    decreases |ps|
  {
    if ps != [] {
      DistinctByNameSubset(ps[..|ps| - 1]);
    }
  }

  /** DistinctByName answers every lookup as the full walk does: each name
      finds its first (most derived) property. */
  lemma {:induction false} DistinctByNameFinds(ps: seq<PropSym>, name: string)
    ensures FindByName(DistinctByName(ps), name) == FindByName(ps, name)
    decreases |ps|
  {
    if ps != [] {
      var init := ps[..|ps| - 1];
      var last := ps[|ps| - 1];
      assert init + [last] == ps;
      DistinctByNameFinds(init, name);
      DistinctByNameFinds(init, last.name);
      FindByNameSnoc(init, last, name);
      FindByNameSnoc(DistinctByName(init), last, name);
    }
  }

  /** Looking a name up in a sequence grown at the end. */
  lemma {:induction false} FindByNameSnoc(ps: seq<PropSym>, p: PropSym, name: string)
    ensures FindByName(ps + [p], name) == if FindByName(ps, name).Some? then FindByName(ps, name)
                                          else if p.name == name then Some(p) else None
    decreases |ps|
  {
    if ps != [] {
      assert (ps + [p])[1..] == ps[1..] + [p];
      FindByNameSnoc(ps[1..], p, name);
    }
  }

  /** Where ToDictionary succeeds it builds the same dictionary as DistinctByName:
      it succeeds exactly when the names are already unique. */
  lemma {:induction false} ToDictionaryByNameAgrees(ps: seq<PropSym>)
    ensures ToDictionaryByName(ps).Success? <==> UniqueNames(ps)
    ensures ToDictionaryByName(ps).Success? ==> ToDictionaryByName(ps).value == ps == DistinctByName(ps)
    decreases |ps|
  {
    if ps != [] {
      var init := ps[..|ps| - 1];
      var last := ps[|ps| - 1];
      ToDictionaryByNameAgrees(init);
      if UniqueNames(init) {
        if FindByName(init, last.name).Some? {
          var j :| 0 <= j < |init| && init[j].name == last.name;
          assert ps[j] == init[j];
        } else {
          UniqueNamesSnoc(ps);
          SplitLast(ps);
        }
      } else {
        var i, j :| 0 <= i < j < |init| && init[i].name == init[j].name;
        assert ps[i] == init[i] && ps[j] == init[j];
      }
    }
  }

  /** A name new to unique names keeps them unique. */
  lemma UniqueNamesSnoc(ps: seq<PropSym>)
    requires ps != [] && UniqueNames(ps[..|ps| - 1]) && FindByName(ps[..|ps| - 1], ps[|ps| - 1].name).None?
    ensures UniqueNames(ps)
  {
    var init := ps[..|ps| - 1];
    forall i, j | 0 <= i < j < |ps|
      ensures ps[i].name != ps[j].name
    {
      assert ps[i] == init[i];
      if j < |init| {
        assert ps[j] == init[j];
      }
    }
  }

  /** A concrete destination: class D overrides the readable property `Id`
      of its base class B.  Both symbols are walked, so ToDictionary meets
      the name twice and throws, where the intended dictionary keeps D's. */
  lemma OverriddenPropertyBreaksToDictionary()
    ensures var intType := TypeSym("Int32", "int", "System", StructKind, SystemInt32, SystemInt32, false,
                                   None, [], [], [], None, None, [], [], [], [], []);
            var baseId := PropSym("Id", "B", TypeUse(intType, NotAnnotated), true, true, false, false, [], true);
            var derivedId := PropSym("Id", "D", TypeUse(intType, NotAnnotated), true, true, false, false, [], true);
            var b := TypeSym("B", "B", "", ClassKind, NoSpecial, NoSpecial, true,
                             None, [], [], [], None, None, [baseId], [], [], [], []);
            var d := TypeSym("D", "D", "", ClassKind, NoSpecial, NoSpecial, true,
                             Some(b), [], [], [], None, None, [derivedId], [], [], [], []);
            && TypeSymbolExtensions.ReadableProperties(d) == [derivedId, baseId]
            && ToDictionaryByName(TypeSymbolExtensions.ReadableProperties(d)) == Failure(DuplicateKey)
            && DistinctByName(TypeSymbolExtensions.ReadableProperties(d)) == [derivedId]
  {
    var intType := TypeSym("Int32", "int", "System", StructKind, SystemInt32, SystemInt32, false,
                           None, [], [], [], None, None, [], [], [], [], []);
    var baseId := PropSym("Id", "B", TypeUse(intType, NotAnnotated), true, true, false, false, [], true);
    var derivedId := PropSym("Id", "D", TypeUse(intType, NotAnnotated), true, true, false, false, [], true);
    var b := TypeSym("B", "B", "", ClassKind, NoSpecial, NoSpecial, true,
                     None, [], [], [], None, None, [baseId], [], [], [], []);
    var d := TypeSym("D", "D", "", ClassKind, NoSpecial, NoSpecial, true,
                     Some(b), [], [], [], None, None, [derivedId], [], [], [], []);
    assert TypeSymbolExtensions.BaseChainFrom(Some(b)) == [b];
    assert TypeSymbolExtensions.BaseChain(d) == [d, b];
    assert [d, b][1..] == [b] && [b][1..] == [];
    assert TypeSymbolExtensions.ChainProperties([b]) == [baseId];
    assert TypeSymbolExtensions.ChainProperties([d, b]) == [derivedId, baseId];
    var walked := [derivedId, baseId];
    assert baseId != derivedId;
    assert TypeSymbolExtensions.Readable(derivedId) && TypeSymbolExtensions.Readable(baseId);
    assert walked[1..] == [baseId] && [baseId][1..] == [];
    assert TypeSymbolExtensions.Dedup([], TypeSymbolExtensions.Readable, {derivedId, baseId}) == [];
    assert {derivedId} + {baseId} == {derivedId, baseId};
    assert TypeSymbolExtensions.Dedup([baseId], TypeSymbolExtensions.Readable, {derivedId}) == [baseId];
    assert {} + {derivedId} == {derivedId};
    assert TypeSymbolExtensions.Dedup(walked, TypeSymbolExtensions.Readable, {}) == [derivedId, baseId];
    assert walked[..1] == [derivedId] && [derivedId][..0] == [];
    assert ToDictionaryByName([]) == Success([]) && [] + [derivedId] == [derivedId];
    assert ToDictionaryByName([derivedId]) == Success([derivedId]);
    assert DistinctByName([derivedId]) == [derivedId];
    assert ToDictionaryByName(walked) == Failure(DuplicateKey);
  }

  // ---------------------------------------------------------------------
  // The constructor

  /** `(INamedTypeSymbol)t` */
  function AsNamed(t: TypeSym): (r: Result<TypeSym, Fault>)
    ensures r.Success? <==> IsNamed(t)
    ensures r.Success? ==> r.value == t
  {
    if IsNamed(t) then Success(t) else Failure(InvalidCast)
  }

  /** The Map attributes of the mappers named by UseMap attributes, mapper by mapper. */
  function BorrowedMaps(otherMappers: seq<AttrData>): Result<seq<AttrData>, Fault> {
    if otherMappers == [] then Success([])
    else
      var mapper :- AttrTypeArg(otherMappers[0], 0);
      var rest :- BorrowedMaps(otherMappers[1..]);
      Success(Where(mapper.attributes, NamedAs(MapAttributeName)) + rest)
  }

  /** `(TypeArguments[0], TypeArguments[1])` of each Map attribute. */
  function TypeMapsOf(allMaps: seq<AttrData>): (r: Result<seq<TypePair>, Fault>)
    ensures r.Success? ==> |r.value| == |allMaps|
  {
    if allMaps == [] then Success([])
    else
      var source :- AttrTypeArg(allMaps[0], 0);
      var destination :- AttrTypeArg(allMaps[0], 1);
      var rest :- TypeMapsOf(allMaps[1..]);
      Success([TypePair(source, destination)] + rest)
  }

  function Sources(pairs: seq<TypePair>): seq<TypeSym> {
    if pairs == [] then [] else [pairs[0].source] + Sources(pairs[1..])
  }

  function Destinations(pairs: seq<TypePair>): seq<TypeSym> {
    if pairs == [] then [] else [pairs[0].destination] + Destinations(pairs[1..])
  }

  /** `x.AttributeClass!.Name == name`, which throws on an unresolved attribute. */
  function NamedOrThrow(name: string): AttrData -> Result<bool, Fault> {
    (a: AttrData) => if a.attrClass.None? then Failure(NullReference) else Success(a.attrClass.value.name == name)
  }

  /** `Convert.ToInt32(value)` of the options argument, then the five masks. */
  function OptionsValue(v: TypedConst): (r: Result<MappingOptions.Flags, Fault>)
    ensures v.IntConst? && 0 <= v.i <= 0x7FFF_FFFF ==>
              r.Success? && MappingOptions.Encode(r.value) == (v.i as bv32) & 31
    ensures v.IntConst? && (v.i > 0x7FFF_FFFF || v.i < -0x8000_0000) ==> r == Failure(Overflow)
    ensures v.NullConst? ==> r == Success(MappingOptions.Flags(false, false, false, false, false))
  {
    match v
    case IntConst(i) =>
      if i > 0x7FFF_FFFF || i < -0x8000_0000 then Failure(Overflow)
      else if i >= 0 then MappingOptions.FromAttributeValue(i)
      else Success(MappingOptions.Decode((i + 0x1_0000_0000) as bv32))
    case NullConst => Success(MappingOptions.Decode(0))
    case _ => Failure(InvalidCast)
  }

  /** `.Values.Select(x => x.Value).OfType<string>()` of an array argument. */
  function StringsOf(items: seq<TypedConst>): (r: seq<string>)
    ensures forall x :: x in r <==> StringConst(x) in items
  {
    if items == [] then []
    else (if items[0].StringConst? then [items[0].s] else []) + StringsOf(items[1..])
  }

  /** IgnoredMembers: `Values` throws on a constant that is not an array. */
  function IgnoredNames(v: TypedConst): Result<seq<string>, Fault> {
    match v
    case ArrayConst(items) => Success(StringsOf(items))
    case NullConst => Failure(NullReference)
    case _ => Failure(InvalidCast)
  }

  function MethodAttributes(m: MethodSym): seq<AttrData> { m.attributes }

  /** `method.GetGenericAttribute(nameof(UseFactoryAttribute<>), destinationType) is not null` */
  function HasFactoryAttribute(destinationType: TypeSym): MethodSym -> Result<bool, Fault> {
    (m: MethodSym) => var a :- GetGenericAttribute(m.attributes, UseFactoryAttributeName, [destinationType]);
         Success(a.Some?)
  }

  /** The hook lists the constructor reads off the mapper's methods. */
  datatype Hooks = Hooks(
    preMapMethods: seq<SymbolAttributeInfo<MethodSym>>,
    postMapMethods: seq<SymbolAttributeInfo<MethodSym>>,
    allPreMapQueries: seq<SymbolAttributeInfo<MethodSym>>,
    allPostMapQueries: seq<SymbolAttributeInfo<MethodSym>>,
    factoryMethod: Option<MethodSym>,
    forMemberMethods: seq<SymbolAttributeInfo<MethodSym>>)

  /** The pre-map, post-map and ForMember lists keep exactly the methods
      whose attribute of that kind has the type arguments (Source,
      Destination), in declaration order; the queries keep the methods with
      one attribute of their name; the factory is the one method marked
      UseFactory<Destination>. */
  function GatherHooks(methods: seq<MethodSym>, sourceType: TypeSym, destinationType: TypeSym): (r: Result<Hooks, Fault>)
    ensures r.Success? ==>
              var pair := [sourceType, destinationType];
              && SymbolsOf(r.value.preMapMethods) == Where(methods, HasSingleGeneric(MethodAttributes, PreMapAttributeName, pair))
              && SymbolsOf(r.value.postMapMethods) == Where(methods, HasSingleGeneric(MethodAttributes, PostMapAttributeName, pair))
              && SymbolsOf(r.value.forMemberMethods) == Where(methods, HasSingleGeneric(MethodAttributes, ForMemberAttributeName, pair))
              && SymbolsOf(r.value.allPreMapQueries) == Where(methods, HasSingleNamed(MethodAttributes, PreMapQueryAttributeName))
              && SymbolsOf(r.value.allPostMapQueries) == Where(methods, HasSingleNamed(MethodAttributes, PostMapQueryAttributeName))
              && (r.value.factoryMethod.Some? ==> r.value.factoryMethod.value in methods)
  {
    var pair := [sourceType, destinationType];
    var preMapMethods :- GetSymbolsWithSingleGenericAttribute(methods, MethodAttributes, PreMapAttributeName, pair);
    var postMapMethods :- GetSymbolsWithSingleGenericAttribute(methods, MethodAttributes, PostMapAttributeName, pair);
    var allPreMapQueries :- GetSymbolsWithSingleAttribute(methods, MethodAttributes, PreMapQueryAttributeName);
    var allPostMapQueries :- GetSymbolsWithSingleAttribute(methods, MethodAttributes, PostMapQueryAttributeName);
    var factoryMethod :- SingleOrDefaultTry(methods, HasFactoryAttribute(destinationType));
    var forMemberMethods :- GetSymbolsWithSingleGenericAttribute(methods, MethodAttributes, ForMemberAttributeName, pair);
    SingleGenericIsFilter(methods, MethodAttributes, PreMapAttributeName, pair);
    SingleGenericIsFilter(methods, MethodAttributes, PostMapAttributeName, pair);
    SingleGenericIsFilter(methods, MethodAttributes, ForMemberAttributeName, pair);
    SingleOrDefaultTryMember(methods, HasFactoryAttribute(destinationType));
    Success(Hooks(preMapMethods, postMapMethods, allPreMapQueries, allPostMapQueries, factoryMethod, forMemberMethods))
  }

  /** What SingleOrDefault finds is an element of the sequence that the predicate accepts. */
  lemma {:induction false} SingleOrDefaultTryMember<T>(s: seq<T>, p: T -> Result<bool, Fault>)
    ensures var r := SingleOrDefaultTry(s, p); r.Success? && r.value.Some? ==> r.value.value in s && p(r.value.value) == Success(true)
  {
    if s != [] {
      SingleOrDefaultTryMember(s[1..], p);
    }
  }

  /** The options and ignored members, read from the GenerateMapper and Map attributes. */
  function GatherSettings(mapperAttributes: seq<AttrData>, mapAttributeData: Option<AttrData>)
    : Result<(MappingOptions.Flags, seq<string>), Fault>
  {
    var generator :- SingleTry(mapperAttributes, NamedOrThrow(GenerateMapperAttributeName));
    var optionsArg :- CtorArg(generator, 0);
    var options :- OptionsValue(optionsArg);
    var found :- if mapAttributeData.Some? then Success(mapAttributeData.value) else Failure(NullReference);
    var ignoredArg :- CtorArg(found, 0);
    var ignoredMembers :- IgnoredNames(ignoredArg);
    Success((options, ignoredMembers))
  }

  /** The constructor, up to the call of GeneratePropertyAssignments.  A
      constructed info rests on exactly one Map attribute for its pair on
      the mapper, whose type arguments are the source and destination. */
  function Gather(mapperType: TypeSym, mapAttr: AttrData): (r: Result<Info, Fault>)
    ensures r.Success? ==>
              && r.value.mapperType == mapperType
              && AttrTypeArg(mapAttr, 0) == Success(r.value.sourceType)
              && AttrTypeArg(mapAttr, 1) == Success(r.value.destinationType)
              && CountWhere(mapperType.attributes, GenericAs(MapAttributeName, [r.value.sourceType, r.value.destinationType])) == 1
              && r.value.destinationProperties == DistinctByName(TypeSymbolExtensions.ReadableProperties(r.value.destinationType))
              && r.value.sourceProperties == TypeSymbolExtensions.ReadableProperties(r.value.sourceType)
              && var pair := [r.value.sourceType, r.value.destinationType];
                 && SymbolsOf(r.value.preMapMethods) == Where(mapperType.methods, HasSingleGeneric(MethodAttributes, PreMapAttributeName, pair))
                 && SymbolsOf(r.value.postMapMethods) == Where(mapperType.methods, HasSingleGeneric(MethodAttributes, PostMapAttributeName, pair))
                 && SymbolsOf(r.value.forMemberMethods) == Where(mapperType.methods, HasSingleGeneric(MethodAttributes, ForMemberAttributeName, pair))
  {
    var mapper :- AsNamed(mapperType);
    var s :- AttrTypeArg(mapAttr, 0);
    var sourceType :- AsNamed(s);
    var d :- AttrTypeArg(mapAttr, 1);
    var destinationType :- AsNamed(d);
    var maps := Where(mapper.attributes, NamedAs(MapAttributeName));
    var otherMappers := Where(mapper.attributes, NamedAs(UseMapAttributeName));
    var borrowed :- BorrowedMaps(otherMappers);
    var allMaps := maps + borrowed;
    var possibleTypeMaps :- TypeMapsOf(allMaps);
    var polymorphableTypes := InheritanceUtils.BuildPolymorphismMap(Sources(possibleTypeMaps) + Destinations(possibleTypeMaps));
    var mapAttributeData :- GetGenericAttribute(mapperType.attributes, MapAttributeName, [sourceType, destinationType]);
    var settings :- GatherSettings(mapper.attributes, mapAttributeData);
    var sourceProperties := TypeSymbolExtensions.ReadableProperties(sourceType);
    var destinationProperties := DistinctByName(TypeSymbolExtensions.ReadableProperties(destinationType));
    var hooks :- GatherHooks(mapperType.methods, sourceType, destinationType);
    CountWhereZero(mapperType.attributes, GenericAs(MapAttributeName, [sourceType, destinationType]));
    Success(Info(mapper, sourceType, destinationType, mapAttr, maps, otherMappers, allMaps, possibleTypeMaps,
                 polymorphableTypes, settings.0, settings.1, sourceProperties, destinationProperties, mapperType.methods,
                 hooks.preMapMethods, hooks.postMapMethods, hooks.allPreMapQueries, hooks.allPostMapQueries,
                 hooks.factoryMethod, hooks.forMemberMethods))
  }

  /** The destination dictionary of a constructed info has unique names,
      and looks every name up as the full walk of readable properties does. */
  lemma GatherDestinationDictionary(mapperType: TypeSym, mapAttr: AttrData, name: string)
    requires Gather(mapperType, mapAttr).Success?
    ensures var info := Gather(mapperType, mapAttr).value;
            && UniqueNames(info.destinationProperties)
            && FindByName(info.destinationProperties, name)
               == FindByName(TypeSymbolExtensions.ReadableProperties(info.destinationType), name)
  {
    var info := Gather(mapperType, mapAttr).value;
    DistinctByNameUnique(TypeSymbolExtensions.ReadableProperties(info.destinationType));
    DistinctByNameFinds(TypeSymbolExtensions.ReadableProperties(info.destinationType), name);
  }

  // ---------------------------------------------------------------------
  // Strategies and their text

  /** How a Convert call guards a null source. */
  datatype NullGuard = NoGuard | NullIfNull | DefaultIfNull

  /** What a projection is materialised as. */
  datatype Shape = AsEnumerable | AsArray | AsList

  /** The decisions of TryGetEnumerationInitialization. */
  datatype Projection = Projection(preQuery: Option<MethodSym>, postQuery: Option<MethodSym>, shape: Shape)

  /** A UseMap attribute's three type arguments: the mapper class, its source and its destination. */
  datatype UseMap = UseMap(mapper: TypeSym, from: TypeSym, to: TypeSym)

  /** One assignment strategy, with everything its text needs. */
  datatype Assignment =
    | Direct(source: string, orDefault: bool)
    | MapperMap(mapper: TypeSym, source: string)
    | MapperGetOrMap(mapper: TypeSym, from: TypeSym, to: TypeSym, source: string, ctor: TypeSymbolExtensions.BlankCtor)
    | OwnMap(mapperType: TypeSym, source: string)
    | OwnGetOrMap(mapperType: TypeSym, from: TypeSym, to: TypeSym, source: string, ctor: TypeSymbolExtensions.BlankCtor)
    | EnumCast(to: TypeSym, source: string)
    | EnumSwitch(source: string, from: TypeSym, to: TypeSym, names: seq<string>, throwIfInvalid: bool)
    | Select(source: string, plan: Projection, element: Assignment)
    | Conversion(convertMethod: string, source: string, provider: Option<string>, guard: NullGuard)

  /** `", ctx"` for a two-parameter hook. */
  function CtxSuffix(m: MethodSym): string {
    if |m.parameters| == 2 then ", ctx" else ""
  }

  /** The factory lambda's parameter list, `type argName, ...`. */
  function CtorParameters(args: seq<TypeSymbolExtensions.CtorArgument>): string {
    Join(", ", seq(|args|, i requires 0 <= i < |args| => args[i].typeName + " " + args[i].argName))
  }

  /** The text TryGetEnumerationInitialization writes around an element expression. */
  function ProjectionText(p: Projection, source: string, element: string): (r: string)
    ensures p.shape == AsArray ==> |r| >= 10 && r[|r| - 10..] == ".ToArray()"
    ensures p.shape == AsList ==> |r| >= 9 && r[|r| - 9..] == ".ToList()"
  {
    var select := (if p.preQuery.Some? then p.preQuery.value.name + "(" + source + CtxSuffix(p.preQuery.value) + ")" else source)
                  + ".Select(x => " + element + ")";
    var wrapped := if p.postQuery.Some? then p.postQuery.value.name + "(" + select + CtxSuffix(p.postQuery.value) + ")" else select;
    match p.shape
    case AsEnumerable => wrapped
    case AsArray => wrapped + ".ToArray()"
    case AsList => wrapped + ".ToList()"
  }

  /** `source`, with ` ?? default!` when asked for. */
  function DirectText(source: string, orDefault: bool): string {
    source + (if orDefault then " ?? default!" else "")
  }

  /** A call of another mapper's Map method. */
  function MapperMapText(mapper: TypeSym, source: string): string {
    mapper.display + ".Map(" + source + ", ctx)"
  }

  /** The GetOrMapObject call that populates through another mapper. */
  function MapperGetOrMapText(mapper: TypeSym, from: TypeSym, to: TypeSym, source: string, ctor: TypeSymbolExtensions.BlankCtor): string {
    "ctx.GetOrMapObject<" + from.display + ", " + to.display + ">(" + source + ", ctx, static ("
    + CtorParameters(ctor.arguments) + ") => " + ctor.ctorCode + ", " + mapper.name + ".Utils.Populate)"
  }

  /** A call of this mapper's own Map method. */
  function OwnMapText(mapperType: TypeSym, source: string): string {
    "global::" + mapperType.display + ".Map(" + source + ", ctx)"
  }

  /** The GetOrMapObject call that populates through this mapper. */
  function OwnGetOrMapText(mapperType: TypeSym, from: TypeSym, to: TypeSym, source: string, ctor: TypeSymbolExtensions.BlankCtor): string {
    "ctx.GetOrMapObject<global::" + from.display + ", global::" + to.display + ">(" + source + ", ctx, static ("
    + CtorParameters(ctor.arguments) + ") => " + ctor.ctorCode + ", global::" + mapperType.display + ".Utils.Populate)"
  }

  /** A Convert.ToX call, guarded against a null source when asked for. */
  function ConversionText(convertMethod: string, source: string, provider: Option<string>, guard: NullGuard): string {
    var call := "Convert." + convertMethod + "(" + source + (if provider.Some? then ", " + provider.value else "") + ")";
    match guard
    case NoGuard => call
    case NullIfNull => source + " is null ? null : " + call
    case DefaultIfNull => source + " is null ? default! : " + call
  }

  /** The C# expression of a strategy, as TryBuildAssignmentExpression writes it. */
  function Render(a: Assignment): string
    decreases a
  {
    match a
    case Direct(source, orDefault) => DirectText(source, orDefault)
    case MapperMap(mapper, source) => MapperMapText(mapper, source)
    case MapperGetOrMap(mapper, from, to, source, ctor) => MapperGetOrMapText(mapper, from, to, source, ctor)
    case OwnMap(mapperType, source) => OwnMapText(mapperType, source)
    case OwnGetOrMap(mapperType, from, to, source, ctor) => OwnGetOrMapText(mapperType, from, to, source, ctor)
    case EnumCast(to, source) => "(global::" + to.display + ")" + source
    case EnumSwitch(source, from, to, names, throwIfInvalid) =>
      GeneratorUtils.EnumSwitchFrom("global::", source, from, to, names, throwIfInvalid)
    case Select(source, plan, element) => ProjectionText(plan, source, Render(element))
    case Conversion(convertMethod, source, provider, guard) => ConversionText(convertMethod, source, provider, guard)
  }


  // ---------------------------------------------------------------------
  // TryBuildAssignmentExpression and its helpers

  /** The OtherMappers predicate on one attribute: its source argument, then
      (only if that matched) its destination argument, each indexed without
      a bound check. */
  function UseMapFor(a: AttrData, sourceType: TypeSym, destinationType: TypeSym): (r: Result<Option<UseMap>, Fault>)
    ensures r.Success? && r.value.Some? ==> SymEq(r.value.value.from, sourceType) && SymEq(r.value.value.to, destinationType)
  {
    if a.attrClass.None? then Success(None)
    else
      var g := a.attrClass.value.generics;
      if |g| < 2 then Failure(IndexOutOfRange)
      else if !SymEq(g[1].argument.sym, sourceType) then Success(None)
      else if |g| < 3 then Failure(IndexOutOfRange)
      else if !SymEq(g[2].argument.sym, destinationType) then Success(None)
      else Success(Some(UseMap(g[0].argument.sym, g[1].argument.sym, g[2].argument.sym)))
  }

  /** `OtherMappers.FirstOrDefault(...)`: the first UseMap attribute from sourceType to destinationType. */
  function FirstUseMap(attrs: seq<AttrData>, sourceType: TypeSym, destinationType: TypeSym): (r: Result<Option<UseMap>, Fault>)
    ensures r.Success? && r.value.Some? ==> SymEq(r.value.value.from, sourceType) && SymEq(r.value.value.to, destinationType)
  {
    if attrs == [] then Success(None)
    else
      var here :- UseMapFor(attrs[0], sourceType, destinationType);
      if here.Some? then Success(here) else FirstUseMap(attrs[1..], sourceType, destinationType)
  }

  /** `PossibleTypeMaps.Where(...).First()`: the first declared pair for these types. */
  function FirstTypeMap(pairs: seq<TypePair>, sourceType: TypeSym, destinationType: TypeSym): (r: Option<TypePair>)
    ensures r.Some? ==> r.value in pairs && SymEq(r.value.source, sourceType) && SymEq(r.value.destination, destinationType)
    ensures r.None? <==> forall i | 0 <= i < |pairs| :: !(SymEq(pairs[i].source, sourceType) && SymEq(pairs[i].destination, destinationType))
  {
    if pairs == [] then None
    else if SymEq(pairs[0].source, sourceType) && SymEq(pairs[0].destination, destinationType) then Some(pairs[0])
    else
      assert forall i | 1 <= i < |pairs| :: pairs[i] == pairs[1..][i - 1];
      FirstTypeMap(pairs[1..], sourceType, destinationType)
  }

  /** The first of AllInterfaces constructed from IEnumerable<T>: its T. */
  function EnumerableInterfaceElement(ifaces: seq<TypeSym>): (r: Result<Option<TypeUse>, Fault>)
    ensures r.Success? && r.value.Some? ==> exists i | 0 <= i < |ifaces| :: r.value.value.sym < ifaces[i]
  {
    if ifaces == [] then Success(None)
    else if ifaces[0].definitionSpecial == SystemIEnumerableT then
      if |ifaces[0].generics| == 0 then Failure(IndexOutOfRange) else Success(Some(ifaces[0].generics[0].argument))
    else
      var r := EnumerableInterfaceElement(ifaces[1..]);
      assert forall j | 0 <= j < |ifaces[1..]| :: ifaces[1..][j] == ifaces[j + 1];
      r
  }

  /** TryGetEnumerableInitializationInfo: IEnumerable<T> itself gives T; a
      string is never a sequence; an array gives its element type; otherwise
      the first IEnumerable<T> interface gives T.  The element is a part of
      the type, which is what makes the resolver's recursion end. */
  function ElementTypeOf(t: TypeUse): (r: Result<Option<TypeUse>, Fault>)
    ensures r.Success? && r.value.Some? ==> r.value.value.sym < t.sym
    ensures t.sym.special == SystemString && t.sym.definitionSpecial != SystemIEnumerableT ==> r == Success(None)
    ensures t.sym.definitionSpecial != SystemIEnumerableT && t.sym.special != SystemString && IsArray(t.sym) ==>
              r == Success(t.sym.elementType)
  {
    if t.sym.definitionSpecial == SystemIEnumerableT then
      if !IsNamed(t.sym) then Failure(InvalidCast)
      else if |t.sym.generics| == 0 then Failure(IndexOutOfRange)
      else Success(Some(t.sym.generics[0].argument))
    else if t.sym.special == SystemString then Success(None)
    else if IsArray(t.sym) then Success(t.sym.elementType)
    else
      var r := EnumerableInterfaceElement(t.sym.allInterfaces);
      assert forall j | 0 <= j < |t.sym.allInterfaces| :: t.sym.allInterfaces[j] < t.sym;
      r
  }

  /** The query predicate: `TypeArguments[0]` equals the source element and
      (only then) `TypeArguments[1]` the destination element. */
  function QueryFor(sourceElement: TypeSym, destinationElement: TypeSym): SymbolAttributeInfo<MethodSym> -> Result<bool, Fault> {
    (q: SymbolAttributeInfo<MethodSym>) => var first :- TypeArgEquals(q.attribute, 0, sourceElement);
         if !first then Success(false) else TypeArgEquals(q.attribute, 1, destinationElement)
  }

  const ListNames: set<string> := {"List", "ICollection", "IReadOnlyList", "IReadOnlyCollection"}

  /** How a destination collection type is materialised, if at all. */
  function ShapeOf(destinationType: TypeSym): Option<Shape> {
    if destinationType.name == "IEnumerable" then Some(AsEnumerable)
    else if destinationType.kind == ArrayKind then Some(AsArray)
    else if destinationType.name in ListNames then Some(AsList)
    else None
  }

  /** The decisions of TryGetEnumerationInitialization: the single matching
      pre-map and post-map queries (looked up before the shape is known),
      and the shape; no projection for a destination of another shape. */
  function ProjectionPlan(preQueries: seq<SymbolAttributeInfo<MethodSym>>, postQueries: seq<SymbolAttributeInfo<MethodSym>>,
                          destinationType: TypeSym, sourceElement: TypeSym, destinationElement: TypeSym)
    : (r: Result<Option<Projection>, Fault>)
    ensures r.Success? ==> (r.value.Some? <==> ShapeOf(destinationType).Some?)
    ensures r.Success? && r.value.Some? ==>
              && r.value.value.shape == ShapeOf(destinationType).value
              && (r.value.value.preQuery.Some? ==>
                    exists q | q in preQueries :: q.symbol == r.value.value.preQuery.value
                                                          && QueryFor(sourceElement, destinationElement)(q) == Success(true))
              && (r.value.value.postQuery.Some? ==>
                    exists q | q in postQueries :: q.symbol == r.value.value.postQuery.value
                                                           && QueryFor(sourceElement, destinationElement)(q) == Success(true))
  {
    var pre :- SingleOrDefaultTry(preQueries, QueryFor(sourceElement, destinationElement));
    var post :- SingleOrDefaultTry(postQueries, QueryFor(sourceElement, destinationElement));
    SingleOrDefaultTryMember(preQueries, QueryFor(sourceElement, destinationElement));
    SingleOrDefaultTryMember(postQueries, QueryFor(sourceElement, destinationElement));
    var shape := ShapeOf(destinationType);
    if shape.None? then Success(None)
    else Success(Some(Projection(if pre.Some? then Some(pre.value.symbol) else None,
                                 if post.Some? then Some(post.value.symbol) else None, shape.value)))
  }

  /** What one resolution produced: the strategy, if any, and what it reported. */
  datatype Resolution = Resolution(assignment: Option<Assignment>, diagnostics: seq<Diagnostic>)

  /** A nested map through another mapper's Map: a direct call without
      PreserveReferences; with it, GetOrMapObject when a blank constructor is
      found, and otherwise AOM207 naming the mapped source type. */
  function UseMapStep(info: Info, u: UseMap, source: string): (r: Resolution)
    ensures !info.options.preserveReferences ==> r == Resolution(Some(MapperMap(u.mapper, source)), [])
    ensures info.options.preserveReferences ==>
              var ctor := TypeSymbolExtensions.TryGetBlankTypeConstructor(u.to, info.factoryMethod);
              && (ctor.found ==> r == Resolution(Some(MapperGetOrMap(u.mapper, u.from, u.to, source, ctor)), []))
              && (!ctor.found ==> r == Resolution(None, [AOM207(u.from.name)]))
  {
    if !info.options.preserveReferences then Resolution(Some(MapperMap(u.mapper, source)), [])
    else
      var ctor := TypeSymbolExtensions.TryGetBlankTypeConstructor(u.to, info.factoryMethod);
      if ctor.found then Resolution(Some(MapperGetOrMap(u.mapper, u.from, u.to, source, ctor)), [])
      else Resolution(None, [AOM207(u.from.name)])
  }

  /** A nested map through this mapper's own Map, for a declared pair. */
  function TypeMapStep(info: Info, pair: TypePair, destinationType: TypeSym, source: string): (r: Resolution)
    ensures !info.options.preserveReferences ==> r == Resolution(Some(OwnMap(info.mapperType, source)), [])
    ensures info.options.preserveReferences ==>
              var ctor := TypeSymbolExtensions.TryGetBlankTypeConstructor(pair.destination, info.factoryMethod);
              && (ctor.found ==> r == Resolution(Some(OwnGetOrMap(info.mapperType, pair.source, pair.destination, source, ctor)), []))
              && (!ctor.found ==> r == Resolution(None, [AOM207(destinationType.name)]))
  {
    if !info.options.preserveReferences then Resolution(Some(OwnMap(info.mapperType, source)), [])
    else
      var ctor := TypeSymbolExtensions.TryGetBlankTypeConstructor(pair.destination, info.factoryMethod);
      if ctor.found then Resolution(Some(OwnGetOrMap(info.mapperType, pair.source, pair.destination, source, ctor)), [])
      else Resolution(None, [AOM207(destinationType.name)])
  }

  /** Enum to enum: a cast under MapEnumsByValue, otherwise the name switch
      of GeneratorUtils.EnumMapSwitchStatement, whose last arm follows
      ThrowExceptionOnUnmappedEnum. */
  function EnumStep(options: MappingOptions.Flags, sourceType: TypeSym, destinationType: TypeSym, source: string): (r: Result<Resolution, Fault>)
    ensures r.Success? ==> r.value.diagnostics == [] && r.value.assignment.Some?
    ensures options.mapEnumsByValue ==> r.Success?
  {
    if options.mapEnumsByValue then Success(Resolution(Some(EnumCast(destinationType, source)), []))
    else
      var names :- GeneratorUtils.EnumArms(sourceType.fields, destinationType.fields);
      Success(Resolution(Some(EnumSwitch(source, sourceType, destinationType, names,
                                         options.throwExceptionOnUnmappedEnum)), []))
  }

  /** The enum step writes a `global::`-qualified cast under
      MapEnumsByValue; otherwise the name switch of EnumMapSwitchStatement,
      failing exactly when the switch does. */
  lemma EnumStepText(options: MappingOptions.Flags, sourceType: TypeSym, destinationType: TypeSym, source: string)
    ensures var r := EnumStep(options, sourceType, destinationType, source);
            && (options.mapEnumsByValue ==>
                  r.Success? && Render(r.value.assignment.value) == "(global::" + destinationType.display + ")" + source)
            && (!options.mapEnumsByValue ==>
                  var text := GeneratorUtils.EnumSwitchText("global::", source, sourceType, destinationType,
                                                           options.throwExceptionOnUnmappedEnum);
                  && (r.Failure? <==> text.Failure?)
                  && (r.Success? ==> Render(r.value.assignment.value) == text.value))
  {
    var arms := GeneratorUtils.EnumArms(sourceType.fields, destinationType.fields);
    if !options.mapEnumsByValue && arms.Success? {
      var a := EnumSwitch(source, sourceType, destinationType, arms.value, options.throwExceptionOnUnmappedEnum);
      RenderEnumSwitch(source, sourceType, destinationType, arms.value, options.throwExceptionOnUnmappedEnum);
      assert EnumStep(options, sourceType, destinationType, source) == Success(Resolution(Some(a), []));
      assert GeneratorUtils.EnumSwitchText("global::", source, sourceType, destinationType, options.throwExceptionOnUnmappedEnum)
          == Success(GeneratorUtils.EnumSwitchFrom("global::", source, sourceType, destinationType, arms.value,
                                                   options.throwExceptionOnUnmappedEnum));
    }
  }

  lemma RenderEnumSwitch(source: string, sourceType: TypeSym, destinationType: TypeSym, arms: seq<string>, throwIfInvalid: bool)
    ensures Render(EnumSwitch(source, sourceType, destinationType, arms, throwIfInvalid))
            == GeneratorUtils.EnumSwitchFrom("global::", source, sourceType, destinationType, arms, throwIfInvalid)
  {
  }

  /** The four strategies tried before collections, in order: exact type,
      UseMap mapper, declared map, enum to enum.  None when none applies.
      Each is chosen only when every earlier one did not apply. */
  function Preferred(info: Info, sourceType: TypeSym, destinationType: TypeSym, source: string, sourceIsNullable: bool)
    : (r: Result<Option<Resolution>, Fault>)
    ensures r.Success? && r.value.Some? ==> |r.value.value.diagnostics| <= 1 && forall x | x in r.value.value.diagnostics :: x.AOM207?
    ensures r.Success? && r.value.Some? && r.value.value.assignment.Some? ==>
              var a := r.value.value.assignment.value;
              var noUseMap := FirstUseMap(info.otherMappers, sourceType, destinationType) == Success(None);
              var noPair := FirstTypeMap(info.possibleTypeMaps, sourceType, destinationType).None?;
              && (a.Direct? <==> SymEq(sourceType, destinationType))
              && (a.MapperMap? || a.MapperGetOrMap? ==> !SymEq(sourceType, destinationType) && !noUseMap)
              && (a.OwnMap? || a.OwnGetOrMap? ==> !SymEq(sourceType, destinationType) && noUseMap && !noPair)
              && (a.EnumCast? || a.EnumSwitch? ==>
                    !SymEq(sourceType, destinationType) && noUseMap && noPair
                    && sourceType.kind == EnumKind && destinationType.kind == EnumKind)
              && !a.Select? && !a.Conversion?
    ensures r == Success(None) <==>
              && !SymEq(sourceType, destinationType)
              && FirstUseMap(info.otherMappers, sourceType, destinationType) == Success(None)
              && FirstTypeMap(info.possibleTypeMaps, sourceType, destinationType).None?
              && !(sourceType.kind == EnumKind && destinationType.kind == EnumKind)
  {
    if SymEq(sourceType, destinationType) then
      Success(Some(Resolution(Some(Direct(source, sourceIsNullable && info.options.suppressNullWarnings)), [])))
    else
      var useMap :- FirstUseMap(info.otherMappers, sourceType, destinationType);
      if useMap.Some? then Success(Some(UseMapStep(info, useMap.value, source)))
      else
        var pair := FirstTypeMap(info.possibleTypeMaps, sourceType, destinationType);
        if pair.Some? then Success(Some(TypeMapStep(info, pair.value, destinationType, source)))
        else if sourceType.kind == EnumKind && destinationType.kind == EnumKind then
          var r :- EnumStep(info.options, sourceType, destinationType, source);
          Success(Some(r))
        else Success(None)
  }

  /** The IConvertible step, the last of the chain: both types convert, the
      destination's (underlying) special type has a Convert method, and the
      provider is the one GetFormatProviderExpression selects.  It reads two
      options, AllowIConvertable and SuppressNullWarnings. */
  function ConvertibleStep(allowIConvertable: bool, suppressNullWarnings: bool, mapperType: TypeSym, c: Compilation,
                           sourceType: TypeUse, destinationType: TypeUse, source: string)
    : (r: Result<Option<Assignment>, Fault>)
    ensures r.Success? && r.value.Some? ==>
              && allowIConvertable
              && r.value.value.Conversion?
              && r.value.value.convertMethod in GeneratorUtils.ConvertMethods.Values
  {
    if !allowIConvertable then Success(None)
    else
      var destInfo :- InheritanceUtils.TryGetConvertibleInfo(destinationType, c);
      if !destInfo.convertible then Success(None)
      else
        var key := if destInfo.underlying.Some? then destInfo.underlying.value.sym.special else destinationType.sym.special;
        if key !in GeneratorUtils.ConvertMethods then Success(None)
        else
          var srcInfo :- InheritanceUtils.TryGetConvertibleInfo(sourceType, c);
          if !srcInfo.convertible then Success(None)
          else
            var s :- AsNamed(sourceType.sym);
            var d :- AsNamed(destinationType.sym);
            var provider := GeneratorUtils.SelectFormatProvider(mapperType, c, s, d);
            var guard := if srcInfo.canBeNull && suppressNullWarnings then
                           (if destInfo.canBeNull then NullIfNull else DefaultIfNull)
                         else NoGuard;
            Success(Some(Conversion(GeneratorUtils.ConvertMethods[key], source, provider, guard)))
  }

  /** The collection step: both sides are sequences, the element resolves
      (recursively, as `x`, nullable as the destination element is
      annotated), and the destination has a shape; otherwise the
      IConvertible step, keeping what the element reported. */
  function CollectionStep(info: Info, c: Compilation, sourceType: TypeUse, destinationType: TypeUse, source: string)
    : Result<Resolution, Fault>
    decreases sourceType.sym, 0
  {
    var sourceElement :- ElementTypeOf(sourceType);
    var destinationElement :- if sourceElement.Some? then ElementTypeOf(destinationType) else Success(None);
    var element :- if sourceElement.Some? && destinationElement.Some? then
                     Resolve(info, c, sourceElement.value, destinationElement.value, "x",
                             destinationElement.value.annotation != NoAnnotation)
                   else Success(Resolution(None, []));
    CollectionFinish(info, c, sourceType, destinationType, source, sourceElement, destinationElement, element)
  }

  /** The rest of the collection step once the element is resolved: the
      projection when the element has an assignment and a plan exists, and
      otherwise the IConvertible step. */
  function CollectionFinish(info: Info, c: Compilation, sourceType: TypeUse, destinationType: TypeUse, source: string,
                            sourceElement: Option<TypeUse>, destinationElement: Option<TypeUse>, element: Resolution)
    : (r: Result<Resolution, Fault>)
    requires element.assignment.Some? ==> sourceElement.Some? && destinationElement.Some?
    ensures r.Success? ==> r.value.diagnostics == element.diagnostics
    ensures r.Success? && r.value.assignment.Some? && r.value.assignment.value.Conversion? ==> info.options.allowIConvertable
  {
    var plan :- if element.assignment.Some? then
                  ProjectionPlan(info.allPreMapQueries, info.allPostMapQueries, destinationType.sym, sourceElement.value.sym, destinationElement.value.sym)
                else Success(None);
    if plan.Some? then Success(Resolution(Some(Select(source, plan.value, element.assignment.value)), element.diagnostics))
    else
      var conversion :- ConvertibleStep(info.options.allowIConvertable, info.options.suppressNullWarnings, info.mapperType, c, sourceType, destinationType, source);
      Success(Resolution(conversion, element.diagnostics))
  }

  /** TryBuildAssignmentExpression: the first strategy that applies, in the
      order exact type, UseMap mapper, declared map, enum to enum,
      collection, IConvertible. */
  function Resolve(info: Info, c: Compilation, sourceType: TypeUse, destinationType: TypeUse,
                   source: string, sourceIsNullable: bool): Result<Resolution, Fault>
    decreases sourceType.sym, 1
  {
    var preferred :- Preferred(info, sourceType.sym, destinationType.sym, source, sourceIsNullable);
    if preferred.Some? then Success(preferred.value)
    else CollectionStep(info, c, sourceType, destinationType, source)
  }

  // ---------------------------------------------------------------------
  // Properties of the chain

  /** A collection is projected only when no earlier strategy applies, and
      a conversion only then and under AllowIConvertable. */
  lemma ResolveCollectionsAndConversionsLast(info: Info, c: Compilation, sourceType: TypeUse, destinationType: TypeUse,
                                             source: string, sourceIsNullable: bool)
    ensures var r := Resolve(info, c, sourceType, destinationType, source, sourceIsNullable);
            r.Success? && r.value.assignment.Some? && (r.value.assignment.value.Select? || r.value.assignment.value.Conversion?) ==>
              && Preferred(info, sourceType.sym, destinationType.sym, source, sourceIsNullable) == Success(None)
              && (r.value.assignment.value.Conversion? ==> info.options.allowIConvertable)
  {
    var p := Preferred(info, sourceType.sym, destinationType.sym, source, sourceIsNullable);
    if p.Success? && p.value.None? {
      var se := ElementTypeOf(sourceType);
      var de := ElementTypeOf(destinationType);
      if se.Success? && se.value.Some? && de.Success? && de.value.Some? {
        var e := Resolve(info, c, se.value.value, de.value.value, "x", de.value.value.annotation != NoAnnotation);
      }
    }
  }

  /** An exact type match copies the source expression, with ` ?? default!`
      exactly when the source is nullable and null warnings are suppressed. */
  lemma ExactMatchText(info: Info, c: Compilation, sourceType: TypeUse, destinationType: TypeUse,
                       source: string, sourceIsNullable: bool)
    requires SymEq(sourceType.sym, destinationType.sym)
    ensures var r := Resolve(info, c, sourceType, destinationType, source, sourceIsNullable);
            && r.Success? && r.value.diagnostics == [] && r.value.assignment.Some?
            && Render(r.value.assignment.value)
               == (if sourceIsNullable && info.options.suppressNullWarnings then source + " ?? default!" else source)
  {
  }

  /** Every diagnostic the chain reports is AOM207, and it reports at most
      one, at any depth of collection nesting. */
  lemma {:induction false} ResolveReportsAtMostOneMissingConstructor(info: Info, c: Compilation, sourceType: TypeUse,
                                                                     destinationType: TypeUse, source: string, sourceIsNullable: bool)
    ensures var r := Resolve(info, c, sourceType, destinationType, source, sourceIsNullable);
            r.Success? ==> |r.value.diagnostics| <= 1 && forall x | x in r.value.diagnostics :: x.AOM207?
    decreases sourceType.sym
  {
    var p := Preferred(info, sourceType.sym, destinationType.sym, source, sourceIsNullable);
    if p.Success? && p.value.None? {
      var se := ElementTypeOf(sourceType);
      var de := ElementTypeOf(destinationType);
      if se.Success? && se.value.Some? && de.Success? && de.value.Some? {
        ResolveReportsAtMostOneMissingConstructor(info, c, se.value.value, de.value.value, "x", de.value.value.annotation != NoAnnotation);
      }
    }
  }

  /** The info with ThrowExceptionOnUnmappedEnum switched. */
  function WithThrowFlagFlipped(info: Info): (r: Info)
    ensures r.options.throwExceptionOnUnmappedEnum != info.options.throwExceptionOnUnmappedEnum
  {
    info.(options := info.options.(throwExceptionOnUnmappedEnum := !info.options.throwExceptionOnUnmappedEnum))
  }

  lemma PreferredIgnoresThrowFlag(info: Info, sourceType: TypeSym, destinationType: TypeSym, source: string, sourceIsNullable: bool)
    requires info.options.mapEnumsByValue
    ensures Preferred(WithThrowFlagFlipped(info), sourceType, destinationType, source, sourceIsNullable)
            == Preferred(info, sourceType, destinationType, source, sourceIsNullable)
  {
  }

  /** Under MapEnumsByValue the ThrowExceptionOnUnmappedEnum flag changes
      nothing, at any depth of collection nesting. */
  lemma {:induction false} ThrowFlagIrrelevantUnderMapByValue(info: Info, c: Compilation, sourceType: TypeUse,
                                                              destinationType: TypeUse, source: string, sourceIsNullable: bool)
    requires info.options.mapEnumsByValue
    ensures Resolve(WithThrowFlagFlipped(info), c, sourceType, destinationType, source, sourceIsNullable)
            == Resolve(info, c, sourceType, destinationType, source, sourceIsNullable)
    decreases sourceType.sym, 1
  {
    PreferredIgnoresThrowFlag(info, sourceType.sym, destinationType.sym, source, sourceIsNullable);
    var p := Preferred(info, sourceType.sym, destinationType.sym, source, sourceIsNullable);
    if p.Success? && p.value.None? {
      CollectionStepIgnoresThrowFlag(info, c, sourceType, destinationType, source);
    }
  }

  lemma {:induction false} CollectionStepIgnoresThrowFlag(info: Info, c: Compilation, sourceType: TypeUse,
                                                          destinationType: TypeUse, source: string)
    requires info.options.mapEnumsByValue
    ensures CollectionStep(WithThrowFlagFlipped(info), c, sourceType, destinationType, source)
            == CollectionStep(info, c, sourceType, destinationType, source)
    decreases sourceType.sym, 0
  {
    var se := ElementTypeOf(sourceType);
    var de := ElementTypeOf(destinationType);
    if se.Success? && se.value.Some? && de.Success? && de.value.Some? {
      ThrowFlagIrrelevantUnderMapByValue(info, c, se.value.value, de.value.value, "x", de.value.value.annotation != NoAnnotation);
      var element := Resolve(info, c, se.value.value, de.value.value, "x", de.value.value.annotation != NoAnnotation);
      if element.Success? {
        CollectionFinishIgnoresThrowFlag(info, c, sourceType, destinationType, source, se.value, de.value, element.value);
      }
    } else if se.Success? && (se.value.None? || de.Success?) {
      var de' := if se.value.Some? then de.value else None;
      CollectionFinishIgnoresThrowFlag(info, c, sourceType, destinationType, source, se.value, de', Resolution(None, []));
    }
  }

  /** The projection and the IConvertible fall-back do not read the throw flag. */
  lemma CollectionFinishIgnoresThrowFlag(info: Info, c: Compilation, sourceType: TypeUse, destinationType: TypeUse, source: string,
                                         sourceElement: Option<TypeUse>, destinationElement: Option<TypeUse>, element: Resolution)
    requires element.assignment.Some? ==> sourceElement.Some? && destinationElement.Some?
    ensures CollectionFinish(WithThrowFlagFlipped(info), c, sourceType, destinationType, source, sourceElement, destinationElement, element)
            == CollectionFinish(info, c, sourceType, destinationType, source, sourceElement, destinationElement, element)
  {
  }

  /** A string is never projected: a string source goes straight to the
      IConvertible step. */
  lemma StringIsNotASequence(info: Info, c: Compilation, sourceType: TypeUse, destinationType: TypeUse, source: string)
    requires sourceType.sym.special == SystemString && sourceType.sym.definitionSpecial != SystemIEnumerableT
    ensures var r := CollectionStep(info, c, sourceType, destinationType, source);
            var conversion := ConvertibleStep(info.options.allowIConvertable, info.options.suppressNullWarnings, info.mapperType, c, sourceType, destinationType, source);
            && (r.Failure? <==> conversion.Failure?)
            && (r.Success? ==> r.value == Resolution(conversion.value, []))
  {
  }

  // ---------------------------------------------------------------------
  // GeneratePropertyAssignments

  /** One entry of the plan: the destination property and its expression. */
  datatype Assigned = Assigned(property: PropSym, expression: string)

  /** The plan and the diagnostics reported while building it. */
  datatype Plan = Plan(assignments: seq<Assigned>, diagnostics: seq<Diagnostic>)

  function Copies(x: Diagnostic, n: nat): (r: seq<Diagnostic>)
    ensures |r| == n && forall i | 0 <= i < n :: r[i] == x
  {
    if n == 0 then [] else Copies(x, n - 1) + [x]
  }

  /** The first loop's step for one source property: the destination
      property of the same name, unless ignored, with the resolved expression. */
  function NameMatchStep(info: Info, c: Compilation, srcProp: PropSym): Result<Plan, Fault> {
    var destProp := FindByName(info.destinationProperties, srcProp.name);
    if destProp.None? || destProp.value.name in info.ignoredMembers then Success(Plan([], []))
    else
      var r :- Resolve(info, c, srcProp.propType, destProp.value.propType, "src." + srcProp.name,
                       srcProp.propType.annotation != NoAnnotation);
      Success(Plan(if r.assignment.Some? then [Assigned(destProp.value, Render(r.assignment.value))] else [], r.diagnostics))
  }

  function NameMatched(info: Info, c: Compilation, props: seq<PropSym>): Result<Plan, Fault>
    decreases |props|
  {
    if props == [] then Success(Plan([], []))
    else
      var earlier :- NameMatched(info, c, props[..|props| - 1]);
      var step :- NameMatchStep(info, c, props[|props| - 1]);
      Success(Plan(earlier.assignments + step.assignments, earlier.diagnostics + step.diagnostics))
  }

  /** `(string)Attribute.ConstructorArguments[0].Value!` used as a dictionary key. */
  function MemberName(a: AttrData): Result<string, Fault> {
    var arg :- CtorArg(a, 0);
    match arg
    case StringConst(s) => Success(s)
    case NullConst => Failure(NullReference)
    case _ => Failure(InvalidCast)
  }

  /** `{Name}(src)` or `{Name}(src, ctx)` */
  function ForMemberCall(m: MethodSym): string {
    m.name + "(src" + CtxSuffix(m) + ")"
  }

  /** The signature checks of one ForMember method against its destination
      property, in the order they are reported. */
  function SignatureDiagnostics(m: MethodSym, sourceType: TypeSym, destProp: PropSym): seq<Diagnostic> {
    (if !m.isStatic then Copies(AOM104(m.name), m.locations) else [])
    + (if |m.parameters| == 0 then Copies(AOM101("First", m.name, sourceType.name), m.locations)
       else if !SymEq(m.parameters[0].paramType, sourceType) then [AOM101("First", m.name, sourceType.name)]
       else [])
    + (if |m.parameters| > 1 && m.parameters[1].paramType.display != MapperContextBaseName
       then [AOM101("Second", m.name, "MapperContextBase")] else [])
    + (if !SymEq(destProp.propType.sym, m.returnType) then [AOM100(m.name, destProp.propType.sym)] else [])
  }

  /** `hasError`: some check failed (a check may fail without a diagnostic
      when the method has no locations). */
  predicate SignatureFails(m: MethodSym, sourceType: TypeSym, destProp: PropSym) {
    || !m.isStatic
    || |m.parameters| == 0
    || !SymEq(m.parameters[0].paramType, sourceType)
    || (|m.parameters| > 1 && m.parameters[1].paramType.display != MapperContextBaseName)
    || !SymEq(destProp.propType.sym, m.returnType)
  }

  /** The second loop's step for one ForMember method. */
  function ForMemberStep(info: Info, fm: SymbolAttributeInfo<MethodSym>): Result<Plan, Fault> {
    var name :- MemberName(fm.attribute);
    var destProp := FindByName(info.destinationProperties, name);
    if destProp.None? then Success(Plan([], [AOM201(name, info.destinationType.name)]))
    else
      var sourceType :- AttrTypeArg(fm.attribute, 0);
      var diagnostics := SignatureDiagnostics(fm.symbol, sourceType, destProp.value);
      if SignatureFails(fm.symbol, sourceType, destProp.value) then Success(Plan([], diagnostics))
      else Success(Plan([Assigned(destProp.value, ForMemberCall(fm.symbol))], diagnostics))
  }

  function ForMembers(info: Info, fms: seq<SymbolAttributeInfo<MethodSym>>): Result<Plan, Fault>
    decreases |fms|
  {
    if fms == [] then Success(Plan([], []))
    else
      var earlier :- ForMembers(info, fms[..|fms| - 1]);
      var step :- ForMemberStep(info, fms[|fms| - 1]);
      Success(Plan(earlier.assignments + step.assignments, earlier.diagnostics + step.diagnostics))
  }

  /** `assignments.Any(x => x.propertySymbol.Equals(p, SymbolEqualityComparer.Default))` */
  predicate Covers(assignments: seq<Assigned>, p: PropSym) {
    exists i | 0 <= i < |assignments| :: assignments[i].property == p
  }

  /** The third loop: `null!` for each required property not yet assigned,
      in dictionary order. */
  function NullFill(props: seq<PropSym>, prior: seq<Assigned>): seq<Assigned>
    decreases |props|
  {
    if props == [] then []
    else
      var earlier := NullFill(props[..|props| - 1], prior);
      var p := props[|props| - 1];
      if p.isRequired && !Covers(prior + earlier, p) then earlier + [Assigned(p, "null!")] else earlier
  }

  /** GeneratePropertyAssignments: the name-matched entries, then the
      ForMember entries, then (with SuppressNullWarnings) the `null!` fill. */
  function PropertyAssignments(info: Info, c: Compilation): Result<Plan, Fault> {
    var named :- NameMatched(info, c, info.sourceProperties);
    var overrides :- ForMembers(info, info.forMemberMethods);
    var prior := named.assignments + overrides.assignments;
    var fill := if info.options.suppressNullWarnings then NullFill(info.destinationProperties, prior) else [];
    Success(Plan(prior + fill, named.diagnostics + overrides.diagnostics))
  }

  lemma ForMembersSnoc(info: Info, fms: seq<SymbolAttributeInfo<MethodSym>>, k: nat)
    requires k < |fms|
    ensures ForMembers(info, fms[..k + 1]) ==
              (var earlier :- ForMembers(info, fms[..k]);
               var step :- ForMemberStep(info, fms[k]);
               Success(Plan(earlier.assignments + step.assignments, earlier.diagnostics + step.diagnostics)))
  {
    assert fms[..k + 1][..k] == fms[..k];
  }

  lemma NameMatchedSnoc(info: Info, c: Compilation, props: seq<PropSym>, k: nat)
    requires k < |props|
    ensures NameMatched(info, c, props[..k + 1]) ==
              (var earlier :- NameMatched(info, c, props[..k]);
               var step :- NameMatchStep(info, c, props[k]);
               Success(Plan(earlier.assignments + step.assignments, earlier.diagnostics + step.diagnostics)))
  {
    assert props[..k + 1][..k] == props[..k];
  }

  lemma NullFillSnoc(props: seq<PropSym>, prior: seq<Assigned>, k: nat)
    requires k < |props|
    ensures NullFill(props[..k + 1], prior) ==
              (var earlier := NullFill(props[..k], prior);
               if props[k].isRequired && !Covers(prior + earlier, props[k]) then earlier + [Assigned(props[k], "null!")] else earlier)
  {
    assert props[..k + 1][..k] == props[..k];
  }

  /** The name-matching loop. */
  method MatchByName(info: Info, c: Compilation) returns (r: Result<Plan, Fault>)
    ensures r == NameMatched(info, c, info.sourceProperties)
  {
    var props := info.sourceProperties;
    var assignments: seq<Assigned> := [];
    var diagnostics: seq<Diagnostic> := [];
    for k := 0 to |props|
      invariant NameMatched(info, c, props[..k]) == Success(Plan(assignments, diagnostics))
    {
      NameMatchedSnoc(info, c, props, k);
      var srcProp := props[k];
      var destProp := FindByName(info.destinationProperties, srcProp.name);
      if destProp.None? || destProp.value.name in info.ignoredMembers {
        assert assignments + [] == assignments && diagnostics + [] == diagnostics;
        continue;
      }
      var resolved := Resolve(info, c, srcProp.propType, destProp.value.propType, "src." + srcProp.name,
                              srcProp.propType.annotation != NoAnnotation);
      if resolved.Failure? {
        NameMatchedPrefixFailure(info, c, props, k + 1);
        return Failure(resolved.error);
      }
      diagnostics := diagnostics + resolved.value.diagnostics;
      if resolved.value.assignment.Some? {
        assignments := assignments + [Assigned(destProp.value, Render(resolved.value.assignment.value))];
      } else {
        assert assignments + [] == assignments;
      }
    }
    assert props[..|props|] == props;
    r := Success(Plan(assignments, diagnostics));
  }

  /** A failure in a prefix is the failure of the whole walk. */
  lemma {:induction false} NameMatchedPrefixFailure(info: Info, c: Compilation, props: seq<PropSym>, n: nat)
    requires n <= |props| && NameMatched(info, c, props[..n]).Failure?
    ensures NameMatched(info, c, props) == NameMatched(info, c, props[..n])
    decreases |props| - n
  {
    if n < |props| {
      NameMatchedSnoc(info, c, props, n);
      NameMatchedPrefixFailure(info, c, props, n + 1);
    } else {
      assert props[..n] == props;
    }
  }

  lemma {:induction false} ForMembersPrefixFailure(info: Info, fms: seq<SymbolAttributeInfo<MethodSym>>, n: nat)
    requires n <= |fms| && ForMembers(info, fms[..n]).Failure?
    ensures ForMembers(info, fms) == ForMembers(info, fms[..n])
    decreases |fms| - n
  {
    if n < |fms| {
      ForMembersSnoc(info, fms, n);
      ForMembersPrefixFailure(info, fms, n + 1);
    } else {
      assert fms[..n] == fms;
    }
  }

  /** The ForMember loop, with its `hasError` flag. */
  method ApplyForMembers(info: Info) returns (r: Result<Plan, Fault>)
    ensures r == ForMembers(info, info.forMemberMethods)
  {
    var fms := info.forMemberMethods;
    var assignments: seq<Assigned> := [];
    var diagnostics: seq<Diagnostic> := [];
    for k := 0 to |fms|
      invariant ForMembers(info, fms[..k]) == Success(Plan(assignments, diagnostics))
    {
      ForMembersSnoc(info, fms, k);
      var fm := fms[k];
      var name := MemberName(fm.attribute);
      if name.Failure? {
        ForMembersPrefixFailure(info, fms, k + 1);
        return Failure(name.error);
      }
      var destProp := FindByName(info.destinationProperties, name.value);
      if destProp.None? {
        diagnostics := diagnostics + [AOM201(name.value, info.destinationType.name)];
        assert assignments + [] == assignments;
        continue;
      }
      var sourceType := AttrTypeArg(fm.attribute, 0);
      if sourceType.Failure? {
        ForMembersPrefixFailure(info, fms, k + 1);
        return Failure(sourceType.error);
      }
      var hasError, reported := CheckSignature(fm.symbol, sourceType.value, destProp.value);
      diagnostics := diagnostics + reported;
      if hasError {
        assert assignments + [] == assignments;
        continue;
      }
      assignments := assignments + [Assigned(destProp.value, ForMemberCall(fm.symbol))];
    }
    assert fms[..|fms|] == fms;
    r := Success(Plan(assignments, diagnostics));
  }

  /** The checks of one ForMember method, each reporting as it fails. */
  method CheckSignature(m: MethodSym, sourceType: TypeSym, destProp: PropSym) returns (hasError: bool, reported: seq<Diagnostic>)
    ensures reported == SignatureDiagnostics(m, sourceType, destProp)
    ensures hasError == SignatureFails(m, sourceType, destProp)
  {
    hasError := false;
    reported := [];
    if !m.isStatic {
      reported := reported + Copies(AOM104(m.name), m.locations);
      hasError := true;
    }
    if |m.parameters| == 0 {
      reported := reported + Copies(AOM101("First", m.name, sourceType.name), m.locations);
      hasError := true;
    } else if !SymEq(m.parameters[0].paramType, sourceType) {
      reported := reported + [AOM101("First", m.name, sourceType.name)];
      hasError := true;
    }
    if |m.parameters| > 1 && m.parameters[1].paramType.display != MapperContextBaseName {
      reported := reported + [AOM101("Second", m.name, "MapperContextBase")];
      hasError := true;
    }
    if !SymEq(destProp.propType.sym, m.returnType) {
      reported := reported + [AOM100(m.name, destProp.propType.sym)];
      hasError := true;
    }
  }

  /** The `null!` loop. */
  method FillRequired(props: seq<PropSym>, prior: seq<Assigned>) returns (fill: seq<Assigned>)
    ensures fill == NullFill(props, prior)
  {
    fill := [];
    for k := 0 to |props|
      invariant fill == NullFill(props[..k], prior)
    {
      NullFillSnoc(props, prior, k);
      var p := props[k];
      if !p.isRequired {
        continue;
      }
      if Covers(prior + fill, p) {
        continue;
      }
      fill := fill + [Assigned(p, "null!")];
    }
    assert props[..|props|] == props;
  }

  /** GeneratePropertyAssignments (MapperInfo/MethodGenerationInfo.cs). */
  method GeneratePropertyAssignments(info: Info, c: Compilation) returns (r: Result<Plan, Fault>)
    ensures r == PropertyAssignments(info, c)
  {
    var named := MatchByName(info, c);
    if named.Failure? {
      return Failure(named.error);
    }
    var overrides := ApplyForMembers(info);
    if overrides.Failure? {
      return Failure(overrides.error);
    }
    var assignments := named.value.assignments + overrides.value.assignments;
    if info.options.suppressNullWarnings {
      var fill := FillRequired(info.destinationProperties, assignments);
      assignments := assignments + fill;
    } else {
      assert assignments + [] == assignments;
    }
    r := Success(Plan(assignments, named.value.diagnostics + overrides.value.diagnostics));
  }

  // ---------------------------------------------------------------------
  // Properties of the plan

  /** The step for one source property: an entry only for the destination
      property of its name that is not ignored, and one exactly when the
      chain resolves the pair. */
  lemma NameMatchStepCharacterized(info: Info, c: Compilation, srcProp: PropSym)
    ensures var r := NameMatchStep(info, c, srcProp);
            var dest := FindByName(info.destinationProperties, srcProp.name);
            && (dest.None? || dest.value.name in info.ignoredMembers ==> r == Success(Plan([], [])))
            && (dest.Some? && dest.value.name !in info.ignoredMembers ==>
                  var res := Resolve(info, c, srcProp.propType, dest.value.propType, "src." + srcProp.name,
                                     srcProp.propType.annotation != NoAnnotation);
                  && (r.Success? <==> res.Success?)
                  && (r.Success? ==> r.value.diagnostics == res.value.diagnostics
                                     && (r.value.assignments != [] <==> res.value.assignment.Some?)
                                     && (res.value.assignment.Some? ==>
                                           r.value.assignments == [Assigned(dest.value, Render(res.value.assignment.value))])))
  {
  }

  /** Every name-matched entry is for the destination property named like
      some source property, and that name is not ignored. */
  lemma {:induction false} NameMatchedSound(info: Info, c: Compilation, props: seq<PropSym>)
    ensures var r := NameMatched(info, c, props);
            r.Success? ==>
              forall a | a in r.value.assignments ::
                a.property.name !in info.ignoredMembers
                && exists i | 0 <= i < |props| :: FindByName(info.destinationProperties, props[i].name) == Some(a.property)
    decreases |props|
  {
    if props != [] {
      var init := props[..|props| - 1];
      var last := props[|props| - 1];
      NameMatchedSound(info, c, init);
      NameMatchStepCharacterized(info, c, last);
      var r := NameMatched(info, c, props);
      if r.Success? {
        var earlier := NameMatched(info, c, init).value;
        var step := NameMatchStep(info, c, last).value;
        assert r.value.assignments == earlier.assignments + step.assignments;
        forall a | a in r.value.assignments
          ensures exists i | 0 <= i < |props| :: FindByName(info.destinationProperties, props[i].name) == Some(a.property)
        {
          if a in earlier.assignments {
            var i :| 0 <= i < |init| && FindByName(info.destinationProperties, init[i].name) == Some(a.property);
            assert init[i] == props[i];
          } else {
            assert FindByName(info.destinationProperties, props[|props| - 1].name) == Some(a.property);
          }
        }
      }
    }
  }

  /** Every source property whose destination namesake is not ignored and
      which the chain resolves gets its entry. */
  lemma {:induction false} NameMatchedComplete(info: Info, c: Compilation, props: seq<PropSym>, i: nat)
    requires i < |props|
    ensures var r := NameMatched(info, c, props);
            var dest := FindByName(info.destinationProperties, props[i].name);
            r.Success? && dest.Some? && dest.value.name !in info.ignoredMembers ==>
              var res := Resolve(info, c, props[i].propType, dest.value.propType, "src." + props[i].name,
                                 props[i].propType.annotation != NoAnnotation);
              res.Success? && (res.value.assignment.Some? ==>
                                 Assigned(dest.value, Render(res.value.assignment.value)) in r.value.assignments)
    decreases |props|
  {
    var init := props[..|props| - 1];
    var r := NameMatched(info, c, props);
    if r.Success? {
      var earlier := NameMatched(info, c, init).value;
      var step := NameMatchStep(info, c, props[|props| - 1]).value;
      assert r.value.assignments == earlier.assignments + step.assignments;
      if i < |init| {
        assert init[i] == props[i];
        NameMatchedComplete(info, c, init, i);
        forall a | a in earlier.assignments ensures a in r.value.assignments { }
      } else {
        NameMatchedCompleteLast(info, c, props);
      }
    }
  }

  /** The base of NameMatchedComplete: the last source property's entry. */
  lemma NameMatchedCompleteLast(info: Info, c: Compilation, props: seq<PropSym>)
    requires props != []
    ensures var r := NameMatched(info, c, props);
            var p := props[|props| - 1];
            var dest := FindByName(info.destinationProperties, p.name);
            r.Success? && dest.Some? && dest.value.name !in info.ignoredMembers ==>
              var res := Resolve(info, c, p.propType, dest.value.propType, "src." + p.name,
                                 p.propType.annotation != NoAnnotation);
              res.Success? && (res.value.assignment.Some? ==>
                                 Assigned(dest.value, Render(res.value.assignment.value)) in r.value.assignments)
  {
    var p := props[|props| - 1];
    NameMatchStepCharacterized(info, c, p);
  }

  /** A ForMember method naming no destination property reports AOM201 and
      adds nothing; one with a failed check adds nothing; a valid one adds
      its call, passing `ctx` exactly when it takes two parameters. */
  lemma ForMemberStepCharacterized(info: Info, fm: SymbolAttributeInfo<MethodSym>)
    ensures var r := ForMemberStep(info, fm);
            var name := MemberName(fm.attribute);
            && (r.Success? <==> name.Success? && (FindByName(info.destinationProperties, name.value).None? || AttrTypeArg(fm.attribute, 0).Success?))
            && (r.Success? && FindByName(info.destinationProperties, name.value).None? ==>
                  r.value == Plan([], [AOM201(name.value, info.destinationType.name)]))
            && (r.Success? && FindByName(info.destinationProperties, name.value).Some? ==>
                  var dest := FindByName(info.destinationProperties, name.value).value;
                  var sourceType := AttrTypeArg(fm.attribute, 0).value;
                  && r.value.diagnostics == SignatureDiagnostics(fm.symbol, sourceType, dest)
                  && (SignatureFails(fm.symbol, sourceType, dest) ==> r.value.assignments == [])
                  && (!SignatureFails(fm.symbol, sourceType, dest) ==>
                        && r.value.diagnostics == []
                        && r.value.assignments == [Assigned(dest, fm.symbol.name + (if |fm.symbol.parameters| == 2 then "(src, ctx)" else "(src)"))]))
  {
    var r := ForMemberStep(info, fm);
    var name := MemberName(fm.attribute);
    if r.Success? && FindByName(info.destinationProperties, name.value).Some? {
      var m := fm.symbol;
      if |m.parameters| == 2 {
        assert ForMemberCall(m) == m.name + "(src" + ", ctx" + ")" == m.name + "(src, ctx)";
      } else {
        assert ForMemberCall(m) == m.name + "(src" + "" + ")" == m.name + "(src)";
      }
    }
  }

  /** A failed check is reported: a non-static method once per location,
      and a wrong second parameter or return type once each. */
  lemma SignatureFailuresReported(m: MethodSym, sourceType: TypeSym, destProp: PropSym)
    ensures var ds := SignatureDiagnostics(m, sourceType, destProp);
            && (!m.isStatic ==> forall i | 0 <= i < m.locations :: ds[i] == AOM104(m.name))
            && (|m.parameters| > 0 && !SymEq(m.parameters[0].paramType, sourceType) ==> AOM101("First", m.name, sourceType.name) in ds)
            && (|m.parameters| > 1 && m.parameters[1].paramType.display != MapperContextBaseName ==> AOM101("Second", m.name, "MapperContextBase") in ds)
            && (!SymEq(destProp.propType.sym, m.returnType) ==> ds[|ds| - 1] == AOM100(m.name, destProp.propType.sym))
  {
  }

  /** How many entries of a plan are for property p. */
  function CountFor(assignments: seq<Assigned>, p: PropSym): nat
    decreases |assignments|
  {
    if assignments == [] then 0
    else CountFor(assignments[..|assignments| - 1], p) + (if assignments[|assignments| - 1].property == p then 1 else 0)
  }

  lemma {:induction false} CountForZero(assignments: seq<Assigned>, p: PropSym)
    ensures CountFor(assignments, p) == 0 <==> !Covers(assignments, p)
    decreases |assignments|
  {
    if assignments != [] {
      var init := assignments[..|assignments| - 1];
      CountForZero(init, p);
      assert forall i | 0 <= i < |init| :: init[i] == assignments[i];
    }
  }

  lemma {:induction false} CountForAppend(a: seq<Assigned>, b: seq<Assigned>, p: PropSym)
    ensures CountFor(a + b, p) == CountFor(a, p) + CountFor(b, p)
    decreases |b|
  {
    if b != [] {
      assert (a + b)[..|a + b| - 1] == a + b[..|b| - 1];
      CountForAppend(a, b[..|b| - 1], p);
    } else {
      assert a + b == a;
    }
  }

  lemma CoversAppend(a: seq<Assigned>, b: seq<Assigned>, p: PropSym)
    ensures Covers(a + b, p) <==> Covers(a, p) || Covers(b, p)
  {
    if Covers(a + b, p) {
      var i :| 0 <= i < |a + b| && (a + b)[i].property == p;
      if i >= |a| {
        assert b[i - |a|].property == p;
      }
    }
    if Covers(b, p) {
      var i :| 0 <= i < |b| && b[i].property == p;
      assert (a + b)[|a| + i].property == p;
    }
    if Covers(a, p) {
      var i :| 0 <= i < |a| && a[i].property == p;
      assert (a + b)[i].property == p;
    }
  }

  /** For distinct properties, the fill gives each required property that
      the earlier entries do not cover exactly one `null!` entry, and no
      other property any entry; every fill entry reads `null!`. */
  lemma {:induction false} NullFillCharacterized(props: seq<PropSym>, prior: seq<Assigned>, p: PropSym)
    requires forall i, j | 0 <= i < j < |props| :: props[i] != props[j]
    ensures CountFor(NullFill(props, prior), p)
            == if p in props && p.isRequired && !Covers(prior, p) then 1 else 0
    ensures forall a | a in NullFill(props, prior) :: a.expression == "null!" && a.property in props
    decreases |props|
  {
    if props != [] {
      var init := props[..|props| - 1];
      var last := props[|props| - 1];
      assert forall i | 0 <= i < |init| :: init[i] == props[i];
      NullFillCharacterized(init, prior, p);
      NullFillCharacterized(init, prior, last);
      var earlier := NullFill(init, prior);
      assert last !in init;
      CountForZero(earlier, last);
      CoversAppend(prior, earlier, last);
      Symbols.SplitLast(props);
      assert p in props <==> p in init || p == last;
      if last.isRequired && !Covers(prior + earlier, last) {
        Symbols.SnocParts(earlier, Assigned(last, "null!"));
        assert CountFor(earlier + [Assigned(last, "null!")], p) == CountFor(earlier, p) + (if last == p then 1 else 0);
      }
    }
  }

  /** With SuppressNullWarnings each required destination property that no
      name-matched or ForMember entry covers ends with exactly one `null!`
      entry, after all the others; without it nothing is added. */
  lemma NullWarningsFill(info: Info, c: Compilation)
    requires UniqueNames(info.destinationProperties)
    ensures var r := PropertyAssignments(info, c);
            r.Success? ==>
              var named := NameMatched(info, c, info.sourceProperties).value;
              var overrides := ForMembers(info, info.forMemberMethods).value;
              var prior := named.assignments + overrides.assignments;
              && r.value.assignments[..|prior|] == prior
              && (!info.options.suppressNullWarnings ==> r.value.assignments == prior)
              && (info.options.suppressNullWarnings ==>
                    forall p | p in info.destinationProperties && p.isRequired && !Covers(prior, p) ::
                      CountFor(r.value.assignments[|prior|..], p) == 1
                      && Assigned(p, "null!") in r.value.assignments)
  {
    var r := PropertyAssignments(info, c);
    if r.Success? && info.options.suppressNullWarnings {
      var named := NameMatched(info, c, info.sourceProperties).value;
      var overrides := ForMembers(info, info.forMemberMethods).value;
      var prior := named.assignments + overrides.assignments;
      var props := info.destinationProperties;
      var fill := NullFill(props, prior);
      assert r.value.assignments == prior + fill;
      assert r.value.assignments[|prior|..] == fill;
      forall p | p in props && p.isRequired && !Covers(prior, p)
        ensures CountFor(fill, p) == 1 && Assigned(p, "null!") in r.value.assignments
      {
        NullFillPlaces(props, prior, p);
      }
    }
  }

  /** A required property the earlier entries miss gets one `null!` entry. */
  lemma NullFillPlaces(props: seq<PropSym>, prior: seq<Assigned>, p: PropSym)
    requires UniqueNames(props) && p in props && p.isRequired && !Covers(prior, p)
    ensures CountFor(NullFill(props, prior), p) == 1 && Assigned(p, "null!") in NullFill(props, prior)
  {
    var fill := NullFill(props, prior);
    NullFillCharacterized(props, prior, p);
    CountForZero(fill, p);
    var i :| 0 <= i < |fill| && fill[i].property == p;
    assert fill[i] in fill;
  }
}
