/** The older Utils class of the generator's root namespace.  Its
    ConvertMethods table, IsSimpleType, TryGetConvertibleInfo,
    GetFormatProviderExpression and property walks are the same code as the
    newer copies (GeneratorUtils, ITypeSymbolExtensions, InheritanceUtils),
    so the model uses those; what differs is spelled here: no `global::`,
    the context variable `context`, a blank constructor without any
    constructor check, a fixed-text polymorphic failure arm, and an if-chain
    that is the empty string when there is nothing to dispatch. */
module LegacyUtils {
  import opened Wrappers
  import opened Symbols
  import InheritanceUtils
  import TypeSymbolExtensions
  import GeneratorUtils

  const LegacyDialect := GeneratorUtils.Dialect("", "context")

  /** BlankTypeConstructor: an object creation with every required settable
      property the type declares set to `null!` or `default`. */
  function BlankTypeConstructor(t: TypeSym): (r: string)
    ensures |r| >= 4 && r[..4] == "new "
  {
    "new " + t.display + "() { " + Join(" ", TypeSymbolExtensions.Initializers(t)) + " }"
  }

  /** Where the newer TryGetBlankTypeConstructor finds a public parameterless
      constructor and no factory, it writes the same text with the type
      qualified by `global::`. */
  lemma BlankConstructorAgreesWithNewer(t: TypeSym)
    requires IsNamed(t) && TypeSymbolExtensions.HasPublicParameterless(t)
    ensures TypeSymbolExtensions.TryGetBlankTypeConstructor(t, None).found
    ensures TypeSymbolExtensions.TryGetBlankTypeConstructor(t, None).ctorCode
            == "new global::" + BlankTypeConstructor(t)[4..]
  {
    assert BlankTypeConstructor(t)[4..] == t.display + "() { " + Join(" ", TypeSymbolExtensions.Initializers(t)) + " }";
  }

  /** EnumMapSwitchStatement (older copy): the same arms, unqualified. */
  method EnumMapSwitchStatement(sourceObjectName: string, source: TypeSym, destination: TypeSym, throwIfInvalid: bool)
    returns (r: Result<string, Fault>)
    ensures r == GeneratorUtils.EnumSwitchText(LegacyDialect.qualifier, sourceObjectName, source, destination, throwIfInvalid)
  {
    r := GeneratorUtils.BuildEnumSwitch(LegacyDialect.qualifier, sourceObjectName, source, destination, throwIfInvalid);
  }

  /** The older final arm: a fixed message naming the declared source type. */
  function UnhandledArm(sourceType: TypeSym): string {
    "_ => throw new AotObjectMapper.Abstractions.Exceptions.UnhandledPolymorphicTypeException(\"Could not map type `"
    + sourceType.display + "` - no matching destination type found.\")"
  }

  /** NoInstanceTypeMapSwitchStatement (older copy). */
  method NoInstanceTypeMapSwitchStatement(sourceObjectName: string, polymorphableTypes: InheritanceUtils.PolymorphismMap,
                                          sourceType: TypeSym, maps: seq<AttrData>, otherMappers: seq<AttrData>)
    returns (r: Result<string, Fault>)
    ensures GeneratorUtils.SubtypesOf(polymorphableTypes, sourceType) == [] ==> r == Success("")
    ensures GeneratorUtils.SubtypesOf(polymorphableTypes, sourceType) != [] ==>
              r == (var arms :- GeneratorUtils.DispatchText(LegacyDialect, GeneratorUtils.SwitchArm, sourceObjectName,
                                                            GeneratorUtils.SubtypesOf(polymorphableTypes, sourceType), maps, otherMappers);
                    Success(sourceObjectName + " switch {" + arms + UnhandledArm(sourceType) + " }"))
  {
    var sourceTypes := GeneratorUtils.SubtypesOf(polymorphableTypes, sourceType);
    if |sourceTypes| == 0 {
      return Success("");
    }
    var sb := sourceObjectName + " switch {";
    var arms :- GeneratorUtils.AppendDispatchArms(LegacyDialect, GeneratorUtils.SwitchArm, sourceObjectName, sourceTypes, maps, otherMappers);
    sb := sb + arms;
    sb := sb + UnhandledArm(sourceType);
    sb := sb + " }";
    r := Success(sb);
  }

  /** InstanceTypeMapSwitchStatement (older copy): the if-chain, or the empty
      string when the source type has no subtypes. */
  method InstanceTypeMapSwitchStatement(sourceObjectName: string, polymorphableTypes: InheritanceUtils.PolymorphismMap,
                                        sourceType: TypeSym, maps: seq<AttrData>, otherMappers: seq<AttrData>)
    returns (r: Result<string, Fault>)
    ensures GeneratorUtils.SubtypesOf(polymorphableTypes, sourceType) == [] ==> r == Success("")
    ensures GeneratorUtils.SubtypesOf(polymorphableTypes, sourceType) != [] ==>
              r == GeneratorUtils.DispatchText(LegacyDialect, GeneratorUtils.IfStatement, sourceObjectName,
                                               GeneratorUtils.SubtypesOf(polymorphableTypes, sourceType), maps, otherMappers)
  {
    var sourceTypes := GeneratorUtils.SubtypesOf(polymorphableTypes, sourceType);
    if |sourceTypes| == 0 {
      return Success("");
    }
    r := GeneratorUtils.AppendDispatchArms(LegacyDialect, GeneratorUtils.IfStatement, sourceObjectName, sourceTypes, maps, otherMappers);
  }

  /** The older if-chain is empty exactly when there is nothing to dispatch:
      it cannot tell a type without subtypes from subtypes that no attribute
      maps, which the newer copy reports apart (false against true with an
      empty statement). */
  lemma {:induction false} EmptyChainIffNoCandidates(sourceObjectName: string, subtypes: seq<TypeSym>,
                                                     maps: seq<AttrData>, otherMappers: seq<AttrData>)
    requires GeneratorUtils.DispatchArms(subtypes, maps, otherMappers).Success?
    ensures GeneratorUtils.DispatchText(LegacyDialect, GeneratorUtils.IfStatement, sourceObjectName, subtypes, maps, otherMappers)
            == Success("")
            <==> GeneratorUtils.DispatchArms(subtypes, maps, otherMappers).value == []
  {
    var arms := GeneratorUtils.DispatchArms(subtypes, maps, otherMappers).value;
    GeneratorUtils.ArmsTextEmpty(LegacyDialect, GeneratorUtils.IfStatement, sourceObjectName, arms);
  }
}
