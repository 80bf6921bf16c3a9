/** The older MethodGenerationInfo (MethodGenerationInfo.cs in the
    generator's root namespace).  It is constructed from the three types
    directly, keeps the hook methods whose attribute of that kind names
    exactly (Source, Destination), and plans the same first-match chain as
    the newer copy, with older texts: no `global::`, a blank constructor
    without any constructor check (so no AOM207), a projection without
    queries, and ForMember methods taken without any signature check.  It
    reports no diagnostics.  Where its code is the newer copy's, the model
    uses the MethodGenerationInfo members. */
module LegacyMethodGenerationInfo {
  import opened Wrappers
  import opened Symbols
  import MappingOptions
  import InheritanceUtils
  import TypeSymbolExtensions
  import GeneratorUtils
  import LegacyUtils
  import RoslynExtensions
  import M = MethodGenerationInfo

  /** MapMethodInfo: a hook method and the attribute that selected it. */
  datatype MapMethodInfo = MapMethodInfo(hookMethod: MethodSym, attribute: AttrData)

  /** The fields the constructor fills. */
  datatype Info = Info(
    mapperType: TypeSym,
    sourceType: TypeSym,
    destinationType: TypeSym,
    maps: seq<AttrData>,
    otherMappers: seq<AttrData>,
    allMaps: seq<AttrData>,
    possibleTypeMaps: seq<M.TypePair>,
    polymorphableTypes: InheritanceUtils.PolymorphismMap,
    userDefinedMapperMethods: seq<MethodSym>,
    preMapMethods: seq<MapMethodInfo>,
    postMapMethods: seq<MapMethodInfo>,
    options: MappingOptions.Flags,
    ignoredMembers: seq<string>,
    sourceProperties: seq<PropSym>,
    destinationProperties: seq<PropSym>,   // the dictionary's values, in insertion order
    forMemberMethods: seq<MapMethodInfo>)

  // ---------------------------------------------------------------------
  // The constructor

  /** The attribute's first two type arguments are (source, destination). */
  predicate NamesPair(a: AttrData, sourceType: TypeSym, destinationType: TypeSym) {
    && a.attrClass.Some? && |a.attrClass.value.generics| >= 2
    && SymEq(a.attrClass.value.generics[0].argument.sym, sourceType)
    && SymEq(a.attrClass.value.generics[1].argument.sym, destinationType)
  }

  /** `TypeArguments[0].Equals(source) && TypeArguments[1].Equals(destination)`,
      each indexed without a bound check. */
  function PairMatch(a: AttrData, sourceType: TypeSym, destinationType: TypeSym): (r: Result<bool, Fault>)
    ensures r == Success(true) <==> NamesPair(a, sourceType, destinationType)
    ensures a.attrClass.Some? && |a.attrClass.value.generics| >= 2 ==> r.Success?
  {
    var first :- TypeArgEquals(a, 0, sourceType);
    if !first then Success(false) else TypeArgEquals(a, 1, destinationType)
  }

  /** The `Single` filter for the map attribute: `AttributeClass!.Name`
      throws on an unresolved attribute. */
  function MapFilter(sourceType: TypeSym, destinationType: TypeSym): AttrData -> Result<bool, Fault> {
    (a: AttrData) => var named :- M.NamedOrThrow(M.MapAttributeName)(a);
         if !named then Success(false) else PairMatch(a, sourceType, destinationType)
  }

  /** The hook filter: `AttributeClass?.Name == name` first, so an
      unresolved attribute is skipped, then the pair. */
  function HookFilter(name: string, sourceType: TypeSym, destinationType: TypeSym): AttrData -> Result<bool, Fault> {
    (a: AttrData) => if !AttrNamed(a, name) then Success(false) else PairMatch(a, sourceType, destinationType)
  }

  /** The filters accept exactly the attributes of their name whose first
      two type arguments are the pair. */
  lemma FiltersExact(name: string, a: AttrData, sourceType: TypeSym, destinationType: TypeSym)
    ensures Holds(HookFilter(name, sourceType, destinationType))(a)
            <==> AttrNamed(a, name) && NamesPair(a, sourceType, destinationType)
    ensures Holds(MapFilter(sourceType, destinationType))(a)
            <==> AttrNamed(a, M.MapAttributeName) && NamesPair(a, sourceType, destinationType)
  {
    assert M.NamedOrThrow(M.MapAttributeName)(a)
           == if a.attrClass.None? then Failure(NullReference) else Success(a.attrClass.value.name == M.MapAttributeName);
  }

  /** A method with exactly one hook attribute of that kind for the pair. */
  function HasHook(name: string, sourceType: TypeSym, destinationType: TypeSym): MethodSym -> bool {
    (m: MethodSym) => CountWhere(m.attributes, Holds(HookFilter(name, sourceType, destinationType))) == 1
  }

  function MethodsOf(infos: seq<MapMethodInfo>): (r: seq<MethodSym>)
    ensures |r| == |infos| && forall i | 0 <= i < |infos| :: r[i] == infos[i].hookMethod
  {
    if infos == [] then [] else [infos[0].hookMethod] + MethodsOf(infos[1..])
  }

  /** One method of the Select: its single hook attribute of that kind
      for the pair, if it has one; several make SingleOrDefault throw. */
  function HookOf(m: MethodSym, name: string, sourceType: TypeSym, destinationType: TypeSym)
    : (r: Result<Option<MapMethodInfo>, Fault>)
    ensures r.Success? ==> (r.value.Some? <==> HasHook(name, sourceType, destinationType)(m))
    ensures r.Success? && r.value.Some? ==>
              && r.value.value.hookMethod == m && r.value.value.attribute in m.attributes
              && AttrNamed(r.value.value.attribute, name) && NamesPair(r.value.value.attribute, sourceType, destinationType)
  {
    var filter := HookFilter(name, sourceType, destinationType);
    var attribute :- SingleOrDefaultTry(m.attributes, filter);
    SingleOrDefaultTryCounts(m.attributes, filter);
    M.SingleOrDefaultTryMember(m.attributes, filter);
    if attribute.Some? then
      FiltersExact(name, attribute.value, sourceType, destinationType);
      Success(Some(MapMethodInfo(m, attribute.value)))
    else Success(None)
  }

  /** The Select / Where(Method is not null) chain over the mapper's methods. */
  function HookMethods(methods: seq<MethodSym>, name: string, sourceType: TypeSym, destinationType: TypeSym)
    : (r: Result<seq<MapMethodInfo>, Fault>)
    ensures r.Success? ==> MethodsOf(r.value) == Where(methods, HasHook(name, sourceType, destinationType))
    ensures r.Success? ==> forall i | 0 <= i < |r.value| :: Hooked(r.value[i], name, sourceType, destinationType)
  {
    if methods == [] then Success([])
    else
      var here :- HookOf(methods[0], name, sourceType, destinationType);
      var rest :- HookMethods(methods[1..], name, sourceType, destinationType);
      var kept := if here.Some? then [here.value] else [];
      HookMethodsCons(methods, HasHook(name, sourceType, destinationType), kept, rest);
      HookedAppend(kept, rest, name, sourceType, destinationType);
      Success(kept + rest)
  }

  /** The hook attribute sits on the method, has the hook's name and names the pair. */
  predicate Hooked(info: MapMethodInfo, name: string, sourceType: TypeSym, destinationType: TypeSym) {
    info.attribute in info.hookMethod.attributes
    && AttrNamed(info.attribute, name) && NamesPair(info.attribute, sourceType, destinationType)
  }

  lemma HookMethodsCons(methods: seq<MethodSym>, p: MethodSym -> bool, kept: seq<MapMethodInfo>, rest: seq<MapMethodInfo>)
    requires methods != [] && MethodsOf(rest) == Where(methods[1..], p)
    requires MethodsOf(kept) == if p(methods[0]) then [methods[0]] else []
    ensures MethodsOf(kept + rest) == Where(methods, p)
  {
    assert MethodsOf(kept + rest) == MethodsOf(kept) + MethodsOf(rest);
  }

  lemma HookedAppend(kept: seq<MapMethodInfo>, rest: seq<MapMethodInfo>, name: string, sourceType: TypeSym, destinationType: TypeSym)
    requires forall i | 0 <= i < |kept| :: Hooked(kept[i], name, sourceType, destinationType)
    requires forall i | 0 <= i < |rest| :: Hooked(rest[i], name, sourceType, destinationType)
    ensures forall i | 0 <= i < |kept + rest| :: Hooked((kept + rest)[i], name, sourceType, destinationType)
  {
    forall i | 0 <= i < |kept + rest|
      ensures Hooked((kept + rest)[i], name, sourceType, destinationType)
    {
      if i >= |kept| {
        assert (kept + rest)[i] == rest[i - |kept|];
      }
    }
  }

  /** The settings and the destination walk sit between the post-map and
      the ForMember lists in the constructor. */
  datatype Settings = Settings(options: MappingOptions.Flags, ignoredMembers: seq<string>,
                               sourceProperties: seq<PropSym>, destinationProperties: seq<PropSym>)

  function GatherSettings(mapperAttributes: seq<AttrData>, mapAttributeData: AttrData,
                          sourceType: TypeSym, destinationType: TypeSym): (r: Result<Settings, Fault>)
    ensures r.Success? ==> r.value.sourceProperties == TypeSymbolExtensions.ReadableProperties(sourceType)
    ensures r.Success? ==> r.value.destinationProperties == M.DistinctByName(TypeSymbolExtensions.ReadableProperties(destinationType))
  {
    var settings :- M.GatherSettings(mapperAttributes, Some(mapAttributeData));
    Success(Settings(settings.0, settings.1, TypeSymbolExtensions.ReadableProperties(sourceType),
                     M.DistinctByName(TypeSymbolExtensions.ReadableProperties(destinationType))))
  }

  /** The constructor (MethodGenerationInfo(mapperType, sourceType,
      destinationType)).  A constructed info rests on exactly one Map
      attribute of the mapper for the pair, and its hook lists keep exactly
      the methods with one attribute of their kind naming the pair. */
  function Gather(mapperType: TypeSym, sourceType: TypeSym, destinationType: TypeSym): (r: Result<Info, Fault>)
    ensures r.Success? ==>
              && r.value.mapperType == mapperType && r.value.sourceType == sourceType
              && r.value.destinationType == destinationType
              && IsNamed(mapperType) && IsNamed(sourceType) && IsNamed(destinationType)
              && CountWhere(mapperType.attributes, Holds(MapFilter(sourceType, destinationType))) == 1
              && MethodsOf(r.value.preMapMethods) == Where(mapperType.methods, HasHook(M.PreMapAttributeName, sourceType, destinationType))
              && MethodsOf(r.value.postMapMethods) == Where(mapperType.methods, HasHook(M.PostMapAttributeName, sourceType, destinationType))
              && MethodsOf(r.value.forMemberMethods) == Where(mapperType.methods, HasHook(M.ForMemberAttributeName, sourceType, destinationType))
              && r.value.sourceProperties == TypeSymbolExtensions.ReadableProperties(sourceType)
              && r.value.destinationProperties == M.DistinctByName(TypeSymbolExtensions.ReadableProperties(destinationType))
  {
    var mapper :- M.AsNamed(mapperType);
    var s :- M.AsNamed(sourceType);
    var d :- M.AsNamed(destinationType);
    var maps := Where(mapper.attributes, RoslynExtensions.NamedAs(M.MapAttributeName));
    var otherMappers := Where(mapper.attributes, RoslynExtensions.NamedAs(M.UseMapAttributeName));
    var borrowed :- M.BorrowedMaps(otherMappers);
    var allMaps := maps + borrowed;
    var possibleTypeMaps :- M.TypeMapsOf(allMaps);
    var polymorphableTypes := InheritanceUtils.BuildPolymorphismMap(M.Sources(possibleTypeMaps) + M.Destinations(possibleTypeMaps));
    var mapAttributeData :- SingleTry(mapperType.attributes, MapFilter(sourceType, destinationType));
    var preMapMethods :- HookMethods(mapper.methods, M.PreMapAttributeName, s, d);
    var postMapMethods :- HookMethods(mapper.methods, M.PostMapAttributeName, s, d);
    var settings :- GatherSettings(mapper.attributes, mapAttributeData, sourceType, d);
    var forMemberMethods :- HookMethods(mapper.methods, M.ForMemberAttributeName, s, d);
    SingleOrDefaultTryCounts(mapperType.attributes, MapFilter(sourceType, destinationType));
    Success(Info(mapper, s, d, maps, otherMappers, allMaps, possibleTypeMaps, polymorphableTypes, mapper.methods,
                 preMapMethods, postMapMethods, settings.options, settings.ignoredMembers,
                 settings.sourceProperties, settings.destinationProperties, forMemberMethods))
  }

  // ---------------------------------------------------------------------
  // Strategies and their text

  /** One assignment strategy of the older resolver. */
  datatype Assignment =
    | Direct(source: string, orDefault: bool)
    | MapperMap(mapper: TypeSym, source: string)
    | MapperGetOrMap(mapper: TypeSym, from: TypeSym, to: TypeSym, source: string)
    | OwnMap(mapperType: TypeSym, source: string)
    | OwnGetOrMap(mapperType: TypeSym, from: TypeSym, to: TypeSym, source: string)
    | EnumCast(to: TypeSym, source: string)
    | EnumSwitch(source: string, from: TypeSym, to: TypeSym, names: seq<string>, throwIfInvalid: bool)
    | Select(source: string, shape: M.Shape, element: Assignment)
    | Converted(conversion: M.Assignment)

  /** What TryGetEnumerationInitialization appends to the source expression. */
  function SelectSuffix(shape: M.Shape, element: string): (r: string)
    ensures |r| >= 13 && r[..13] == ".Select(x => "
    ensures shape == M.AsArray ==> |r| >= 10 && r[|r| - 10..] == ".ToArray()"
    ensures shape == M.AsList ==> |r| >= 9 && r[|r| - 9..] == ".ToList()"
    ensures shape == M.AsEnumerable ==> r[|r| - 1] == ')'
  {
    var select := ".Select(x => " + element + ")";
    match shape
    case AsEnumerable => select
    case AsArray => select + ".ToArray()"
    case AsList => select + ".ToList()"
  }

  /** The older projection is the newer one with neither query. */
  lemma SelectSuffixIsNewerProjectionWithoutQueries(shape: M.Shape, source: string, element: string)
    ensures source + SelectSuffix(shape, element) == M.ProjectionText(M.Projection(None, None, shape), source, element)
  {
  }

  /** The C# expression of a strategy, as the older TryBuildAssignmentExpression writes it. */
  /** The GetOrMapObject call that populates through the `{to.Name}_Utils`
      class of the mapper written `mapper`. */
  function GetOrMapText(mapper: string, from: TypeSym, to: TypeSym, source: string): string {
    "ctx.GetOrMapObject<" + from.display + ", " + to.display + ">(" + source + ", ctx, static () => "
    + LegacyUtils.BlankTypeConstructor(to) + ", " + mapper + "." + to.name + "_Utils.Populate)"
  }

  function Render(a: Assignment): string
    decreases a
  {
    match a
    case Direct(source, orDefault) => M.DirectText(source, orDefault)
    case MapperMap(mapper, source) => M.MapperMapText(mapper, source)
    case MapperGetOrMap(mapper, from, to, source) => GetOrMapText(mapper.name, from, to, source)
    case OwnMap(mapperType, source) => mapperType.display + ".Map(" + source + ", ctx)"
    case OwnGetOrMap(mapperType, from, to, source) => GetOrMapText(mapperType.display, from, to, source)
    case EnumCast(to, source) => "(" + to.display + ")" + source
    case EnumSwitch(source, from, to, names, throwIfInvalid) => GeneratorUtils.EnumSwitchFrom("global::", source, from, to, names, throwIfInvalid)
    case Select(source, shape, element) => source + SelectSuffix(shape, Render(element))
    case Converted(conversion) => M.Render(conversion)
  }

  // ---------------------------------------------------------------------
  // TryBuildAssignmentExpression

  /** Enum to enum: a cast without `global::` under MapEnumsByValue,
      otherwise the name switch of GeneratorUtils.EnumMapSwitchStatement. */
  function EnumStep(options: MappingOptions.Flags, sourceType: TypeSym, destinationType: TypeSym, source: string): (r: Result<Assignment, Fault>)
    ensures r.Success? ==> r.value.EnumCast? || r.value.EnumSwitch?
    ensures options.mapEnumsByValue ==>
              r.Success? && Render(r.value) == "(" + destinationType.display + ")" + source
    ensures !options.mapEnumsByValue ==>
              var text := GeneratorUtils.EnumSwitchText("global::", source, sourceType, destinationType,
                                                       options.throwExceptionOnUnmappedEnum);
              && (r.Failure? <==> text.Failure?)
              && (r.Success? ==> Render(r.value) == text.value)
  {
    if options.mapEnumsByValue then Success(EnumCast(destinationType, source))
    else
      var names :- GeneratorUtils.EnumArms(sourceType.fields, destinationType.fields);
      Success(EnumSwitch(source, sourceType, destinationType, names, options.throwExceptionOnUnmappedEnum))
  }

  /** The four strategies tried before collections, in order: exact type,
      UseMap mapper, declared map, enum to enum; None when none applies.
      A nested map is GetOrMapObject exactly under PreserveReferences, and
      never fails for want of a constructor. */
  function Preferred(info: Info, sourceType: TypeSym, destinationType: TypeSym, source: string, sourceIsNullable: bool)
    : (r: Result<Option<Assignment>, Fault>)
    ensures r.Success? && r.value.Some? ==>
              var a := r.value.value;
              var useMap := M.FirstUseMap(info.otherMappers, sourceType, destinationType);
              var pair := M.FirstTypeMap(info.possibleTypeMaps, sourceType, destinationType);
              && (a.Direct? <==> SymEq(sourceType, destinationType))
              && (a.MapperMap? || a.MapperGetOrMap? ==> !SymEq(sourceType, destinationType) && useMap.Success? && useMap.value.Some?)
              && (a.OwnMap? || a.OwnGetOrMap? ==> !SymEq(sourceType, destinationType) && useMap == Success(None) && pair.Some?)
              && (a.EnumCast? || a.EnumSwitch? ==>
                    !SymEq(sourceType, destinationType) && useMap == Success(None) && pair.None?
                    && sourceType.kind == EnumKind && destinationType.kind == EnumKind)
              && (a.MapperGetOrMap? || a.OwnGetOrMap? <==> (a.MapperMap? || a.OwnMap? || a.MapperGetOrMap? || a.OwnGetOrMap?) && info.options.preserveReferences)
              && !a.Select? && !a.Converted?
    ensures r == Success(None) <==>
              && !SymEq(sourceType, destinationType)
              && M.FirstUseMap(info.otherMappers, sourceType, destinationType) == Success(None)
              && M.FirstTypeMap(info.possibleTypeMaps, sourceType, destinationType).None?
              && !(sourceType.kind == EnumKind && destinationType.kind == EnumKind)
  {
    if SymEq(sourceType, destinationType) then
      Success(Some(Direct(source, sourceIsNullable && info.options.suppressNullWarnings)))
    else
      var useMap :- M.FirstUseMap(info.otherMappers, sourceType, destinationType);
      if useMap.Some? then
        var u := useMap.value;
        Success(Some(if info.options.preserveReferences then MapperGetOrMap(u.mapper, u.from, u.to, source)
                     else MapperMap(u.mapper, source)))
      else
        var pair := M.FirstTypeMap(info.possibleTypeMaps, sourceType, destinationType);
        if pair.Some? then
          var p := pair.value;
          Success(Some(if info.options.preserveReferences then OwnGetOrMap(info.mapperType, p.source, p.destination, source)
                       else OwnMap(info.mapperType, source)))
        else if sourceType.kind == EnumKind && destinationType.kind == EnumKind then
          var a :- EnumStep(info.options, sourceType, destinationType, source);
          Success(Some(a))
        else Success(None)
  }

  /** The collection step (both sides sequences, the element resolves as
      `x`, the destination has a shape), otherwise the IConvertible step. */
  function CollectionStep(info: Info, c: Compilation, sourceType: TypeUse, destinationType: TypeUse, source: string)
    : Result<Option<Assignment>, Fault>
    decreases sourceType.sym, 0
  {
    var sourceElement :- M.ElementTypeOf(sourceType);
    var destinationElement :- if sourceElement.Some? then M.ElementTypeOf(destinationType) else Success(None);
    var element :- if sourceElement.Some? && destinationElement.Some? then
                     Resolve(info, c, sourceElement.value, destinationElement.value, "x",
                             destinationElement.value.annotation != NoAnnotation)
                   else Success(None);
    var shape := if element.Some? then M.ShapeOf(destinationType.sym) else None;
    if shape.Some? then Success(Some(Select(source, shape.value, element.value)))
    else
      var conversion :- M.ConvertibleStep(info.options.allowIConvertable, info.options.suppressNullWarnings,
                                          info.mapperType, c, sourceType, destinationType, source);
      Success(if conversion.Some? then Some(Converted(conversion.value)) else None)
  }

  /** TryBuildAssignmentExpression (older copy): the first strategy that
      applies, in the order exact type, UseMap mapper, declared map, enum to
      enum, collection, IConvertible. */
  function Resolve(info: Info, c: Compilation, sourceType: TypeUse, destinationType: TypeUse,
                   source: string, sourceIsNullable: bool): Result<Option<Assignment>, Fault>
    decreases sourceType.sym, 1
  {
    var preferred :- Preferred(info, sourceType.sym, destinationType.sym, source, sourceIsNullable);
    if preferred.Some? then Success(preferred)
    else CollectionStep(info, c, sourceType, destinationType, source)
  }

  // ---------------------------------------------------------------------
  // Properties of the chain

  /** A collection is projected, in one of the three shapes the
      destination has, only when no earlier strategy applies; a conversion
      only then and under AllowIConvertable. */
  lemma ResolveCollectionsAndConversionsLast(info: Info, c: Compilation, sourceType: TypeUse, destinationType: TypeUse,
                                             source: string, sourceIsNullable: bool)
    ensures var r := Resolve(info, c, sourceType, destinationType, source, sourceIsNullable);
            r.Success? && r.value.Some? && (r.value.value.Select? || r.value.value.Converted?) ==>
              && Preferred(info, sourceType.sym, destinationType.sym, source, sourceIsNullable) == Success(None)
              && (r.value.value.Select? ==> M.ShapeOf(destinationType.sym) == Some(r.value.value.shape))
              && (r.value.value.Converted? ==> info.options.allowIConvertable && r.value.value.conversion.Conversion?)
  {
    var p := Preferred(info, sourceType.sym, destinationType.sym, source, sourceIsNullable);
    if p.Success? && p.value.None? {
      var se := M.ElementTypeOf(sourceType);
      var de := M.ElementTypeOf(destinationType);
      if se.Success? && se.value.Some? && de.Success? && de.value.Some? {
        var e := Resolve(info, c, se.value.value, de.value.value, "x", de.value.value.annotation != NoAnnotation);
      }
    }
  }

  /** Under PreserveReferences every nested map is a GetOrMapObject call
      through the blank constructor: it never fails, whatever constructors
      the destination type has. */
  lemma PreservedNestedMapsAlwaysAssign(info: Info, c: Compilation, sourceType: TypeUse, destinationType: TypeUse,
                                        source: string, sourceIsNullable: bool)
    requires info.options.preserveReferences && !SymEq(sourceType.sym, destinationType.sym)
    ensures var r := Resolve(info, c, sourceType, destinationType, source, sourceIsNullable);
            var useMap := M.FirstUseMap(info.otherMappers, sourceType.sym, destinationType.sym);
            var pair := M.FirstTypeMap(info.possibleTypeMaps, sourceType.sym, destinationType.sym);
            && (useMap.Success? && useMap.value.Some? ==>
                  r == Success(Some(MapperGetOrMap(useMap.value.value.mapper, useMap.value.value.from, useMap.value.value.to, source))))
            && (useMap == Success(None) && pair.Some? ==>
                  r == Success(Some(OwnGetOrMap(info.mapperType, pair.value.source, pair.value.destination, source))))
  {
  }

  /** An exact type match copies the source expression, with ` ?? default!`
      exactly when the source is nullable and null warnings are suppressed. */
  lemma ExactMatchText(info: Info, c: Compilation, sourceType: TypeUse, destinationType: TypeUse,
                       source: string, sourceIsNullable: bool)
    requires SymEq(sourceType.sym, destinationType.sym)
    ensures var r := Resolve(info, c, sourceType, destinationType, source, sourceIsNullable);
            && r.Success? && r.value.Some?
            && Render(r.value.value)
               == (if sourceIsNullable && info.options.suppressNullWarnings then source + " ?? default!" else source)
  {
  }

  // ---------------------------------------------------------------------
  // GeneratePropertyAssignments

  /** The first loop's step for one source property. */
  function NameMatchStep(info: Info, c: Compilation, srcProp: PropSym): Result<seq<M.Assigned>, Fault> {
    var destProp := M.FindByName(info.destinationProperties, srcProp.name);
    if destProp.None? || destProp.value.name in info.ignoredMembers then Success([])
    else
      var r :- Resolve(info, c, srcProp.propType, destProp.value.propType, "src." + srcProp.name,
                       srcProp.propType.annotation != NoAnnotation);
      Success(if r.Some? then [M.Assigned(destProp.value, Render(r.value))] else [])
  }

  function NameMatched(info: Info, c: Compilation, props: seq<PropSym>): Result<seq<M.Assigned>, Fault>
    decreases |props|
  {
    if props == [] then Success([])
    else
      var earlier :- NameMatched(info, c, props[..|props| - 1]);
      var step :- NameMatchStep(info, c, props[|props| - 1]);
      Success(earlier + step)
  }

  /** The second loop's step: the call for a known member name, with no
      check of the method, and nothing for an unknown one. */
  function ForMemberStep(info: Info, fm: MapMethodInfo): Result<seq<M.Assigned>, Fault> {
    var name :- M.MemberName(fm.attribute);
    var destProp := M.FindByName(info.destinationProperties, name);
    if destProp.None? then Success([]) else Success([M.Assigned(destProp.value, M.ForMemberCall(fm.hookMethod))])
  }

  function ForMembers(info: Info, fms: seq<MapMethodInfo>): Result<seq<M.Assigned>, Fault>
    decreases |fms|
  {
    if fms == [] then Success([])
    else
      var earlier :- ForMembers(info, fms[..|fms| - 1]);
      var step :- ForMemberStep(info, fms[|fms| - 1]);
      Success(earlier + step)
  }

  /** GeneratePropertyAssignments (older copy): the name-matched entries,
      then the ForMember entries, then (with SuppressNullWarnings) the
      `null!` fill. */
  function PropertyAssignments(info: Info, c: Compilation): Result<seq<M.Assigned>, Fault> {
    var named :- NameMatched(info, c, info.sourceProperties);
    var overrides :- ForMembers(info, info.forMemberMethods);
    var prior := named + overrides;
    Success(prior + if info.options.suppressNullWarnings then M.NullFill(info.destinationProperties, prior) else [])
  }

  lemma NameMatchedSnoc(info: Info, c: Compilation, props: seq<PropSym>, k: nat)
    requires k < |props|
    ensures NameMatched(info, c, props[..k + 1]) ==
              (var earlier :- NameMatched(info, c, props[..k]);
               var step :- NameMatchStep(info, c, props[k]);
               Success(earlier + step))
  {
    assert props[..k + 1][..k] == props[..k];
  }

  lemma ForMembersSnoc(info: Info, fms: seq<MapMethodInfo>, k: nat)
    requires k < |fms|
    ensures ForMembers(info, fms[..k + 1]) ==
              (var earlier :- ForMembers(info, fms[..k]);
               var step :- ForMemberStep(info, fms[k]);
               Success(earlier + step))
  {
    assert fms[..k + 1][..k] == fms[..k];
  }

  lemma {:induction false} NameMatchedPrefixFailure(info: Info, c: Compilation, props: seq<PropSym>, n: nat)
    requires n <= |props| && NameMatched(info, c, props[..n]).Failure?
    ensures NameMatched(info, c, props) == NameMatched(info, c, props[..n])
    decreases |props| - n
  {
    if n < |props| {
      NameMatchedSnoc(info, c, props, n);
      NameMatchedPrefixFailure(info, c, props, n + 1);
    } else {
      assert props[..n] == props;
    }
  }

  lemma {:induction false} ForMembersPrefixFailure(info: Info, fms: seq<MapMethodInfo>, n: nat)
    requires n <= |fms| && ForMembers(info, fms[..n]).Failure?
    ensures ForMembers(info, fms) == ForMembers(info, fms[..n])
    decreases |fms| - n
  {
    if n < |fms| {
      ForMembersSnoc(info, fms, n);
      ForMembersPrefixFailure(info, fms, n + 1);
    } else {
      assert fms[..n] == fms;
    }
  }

  /** The name-matching loop. */
  method MatchByName(info: Info, c: Compilation) returns (r: Result<seq<M.Assigned>, Fault>)
    ensures r == NameMatched(info, c, info.sourceProperties)
  {
    var props := info.sourceProperties;
    var assignments: seq<M.Assigned> := [];
    for k := 0 to |props|
      invariant NameMatched(info, c, props[..k]) == Success(assignments)
    {
      NameMatchedSnoc(info, c, props, k);
      var srcProp := props[k];
      var destProp := M.FindByName(info.destinationProperties, srcProp.name);
      if destProp.None? || destProp.value.name in info.ignoredMembers {
        assert assignments + [] == assignments;
        continue;
      }
      var resolved := Resolve(info, c, srcProp.propType, destProp.value.propType, "src." + srcProp.name,
                              srcProp.propType.annotation != NoAnnotation);
      if resolved.Failure? {
        NameMatchedPrefixFailure(info, c, props, k + 1);
        return Failure(resolved.error);
      }
      if resolved.value.Some? {
        assignments := assignments + [M.Assigned(destProp.value, Render(resolved.value.value))];
      } else {
        assert assignments + [] == assignments;
      }
    }
    assert props[..|props|] == props;
    r := Success(assignments);
  }

  /** The ForMember loop: no flag, no checks. */
  method ApplyForMembers(info: Info) returns (r: Result<seq<M.Assigned>, Fault>)
    ensures r == ForMembers(info, info.forMemberMethods)
  {
    var fms := info.forMemberMethods;
    var assignments: seq<M.Assigned> := [];
    for k := 0 to |fms|
      invariant ForMembers(info, fms[..k]) == Success(assignments)
    {
      ForMembersSnoc(info, fms, k);
      var name := M.MemberName(fms[k].attribute);
      if name.Failure? {
        ForMembersPrefixFailure(info, fms, k + 1);
        return Failure(name.error);
      }
      var destProp := M.FindByName(info.destinationProperties, name.value);
      if destProp.None? {
        assert assignments + [] == assignments;
        continue;
      }
      assignments := assignments + [M.Assigned(destProp.value, M.ForMemberCall(fms[k].hookMethod))];
    }
    assert fms[..|fms|] == fms;
    r := Success(assignments);
  }

  /** GeneratePropertyAssignments (MethodGenerationInfo.cs, older copy). */
  method GeneratePropertyAssignments(info: Info, c: Compilation) returns (r: Result<seq<M.Assigned>, Fault>)
    ensures r == PropertyAssignments(info, c)
  {
    var named := MatchByName(info, c);
    if named.Failure? {
      return Failure(named.error);
    }
    var overrides := ApplyForMembers(info);
    if overrides.Failure? {
      return Failure(overrides.error);
    }
    var assignments := named.value + overrides.value;
    if info.options.suppressNullWarnings {
      var fill := M.FillRequired(info.destinationProperties, assignments);
      assignments := assignments + fill;
    } else {
      assert assignments + [] == assignments;
    }
    r := Success(assignments);
  }

  // ---------------------------------------------------------------------
  // Properties of the plan

  /** A ForMember method naming an unknown member is skipped without a
      word; one naming a known member is always assigned, passing `ctx`
      exactly when it has two parameters, whatever its signature. */
  lemma ForMemberStepCharacterized(info: Info, fm: MapMethodInfo)
    ensures var r := ForMemberStep(info, fm);
            var name := M.MemberName(fm.attribute);
            && (r.Success? <==> name.Success?)
            && (r.Success? && M.FindByName(info.destinationProperties, name.value).None? ==> r.value == [])
            && (r.Success? && M.FindByName(info.destinationProperties, name.value).Some? ==>
                  r.value == [M.Assigned(M.FindByName(info.destinationProperties, name.value).value,
                                         fm.hookMethod.name + (if |fm.hookMethod.parameters| == 2 then "(src, ctx)" else "(src)"))])
  {
    var r := ForMemberStep(info, fm);
    var m := fm.hookMethod;
    if |m.parameters| == 2 {
      assert M.ForMemberCall(m) == m.name + "(src" + ", ctx" + ")" == m.name + "(src, ctx)";
    } else {
      assert M.ForMemberCall(m) == m.name + "(src" + "" + ")" == m.name + "(src)";
    }
  }

  /** Every ForMember entry is for a destination property named by some
      ForMember method's attribute. */
  lemma {:induction false} ForMembersSound(info: Info, fms: seq<MapMethodInfo>)
    ensures var r := ForMembers(info, fms);
            r.Success? ==>
              forall a | a in r.value :: exists i | 0 <= i < |fms| ::
                M.MemberName(fms[i].attribute).Success?
                && M.FindByName(info.destinationProperties, M.MemberName(fms[i].attribute).value) == Some(a.property)
                && a.expression == M.ForMemberCall(fms[i].hookMethod)
    decreases |fms|
  {
    if fms != [] {
      var init := fms[..|fms| - 1];
      ForMembersSound(info, init);
      var r := ForMembers(info, fms);
      if r.Success? {
        var earlier := ForMembers(info, init).value;
        forall a | a in r.value
          ensures exists i | 0 <= i < |fms| ::
                    M.MemberName(fms[i].attribute).Success?
                    && M.FindByName(info.destinationProperties, M.MemberName(fms[i].attribute).value) == Some(a.property)
                    && a.expression == M.ForMemberCall(fms[i].hookMethod)
        {
          if a in earlier {
            var i :| 0 <= i < |init| && M.MemberName(init[i].attribute).Success?
                     && M.FindByName(info.destinationProperties, M.MemberName(init[i].attribute).value) == Some(a.property)
                     && a.expression == M.ForMemberCall(init[i].hookMethod);
            assert init[i] == fms[i];
          } else {
            assert a in ForMemberStep(info, fms[|fms| - 1]).value;
          }
        }
      }
    }
  }

  /** With SuppressNullWarnings each required destination property that no
      earlier entry covers ends with exactly one `null!` entry, after all
      the others; without it nothing is added. */
  lemma NullWarningsFill(info: Info, c: Compilation)
    requires M.UniqueNames(info.destinationProperties)
    ensures var r := PropertyAssignments(info, c);
            r.Success? ==>
              var prior := NameMatched(info, c, info.sourceProperties).value + ForMembers(info, info.forMemberMethods).value;
              && r.value[..|prior|] == prior
              && (!info.options.suppressNullWarnings ==> r.value == prior)
              && (info.options.suppressNullWarnings ==>
                    forall p | p in info.destinationProperties && p.isRequired && !M.Covers(prior, p) ::
                      M.CountFor(r.value[|prior|..], p) == 1 && M.Assigned(p, "null!") in r.value)
  {
    var r := PropertyAssignments(info, c);
    if r.Success? && info.options.suppressNullWarnings {
      var prior := NameMatched(info, c, info.sourceProperties).value + ForMembers(info, info.forMemberMethods).value;
      var props := info.destinationProperties;
      var fill := M.NullFill(props, prior);
      assert r.value == prior + fill;
      assert r.value[|prior|..] == fill;
      forall p | p in props && p.isRequired && !M.Covers(prior, p)
        ensures M.CountFor(fill, p) == 1 && M.Assigned(p, "null!") in r.value
      {
        M.NullFillPlaces(props, prior, p);
      }
    }
  }
}
