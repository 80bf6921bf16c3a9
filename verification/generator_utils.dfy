/** GeneratorUtils: the Convert method table, the enum-by-name switch, the
    polymorphic dispatch switch and if-chain, and the format-provider search.
    The StringBuilder each builder fills is a local string; AppendLine ends a
    line with `NewLine`.  The older copies in Utils.cs differ only in how
    they spell types and the context variable (`Dialect`) and in their final
    arms, so the arm logic below serves both. */
module GeneratorUtils {
  import opened Wrappers
  import opened Symbols
  import InheritanceUtils
  import TypeSymbolExtensions

  /** Environment.NewLine, fixed. */
  const NewLine := "\n"

  // ---------------------------------------------------------------------
  // ConvertMethods

  /** The special types with a `Convert.ToXxx` method, and its name. */
  const ConvertMethods: map<SpecialType, string> := map[
    SystemBoolean := "ToBoolean", SystemByte := "ToByte", SystemSByte := "ToSByte",
    SystemInt16 := "ToInt16", SystemUInt16 := "ToUInt16",
    SystemInt32 := "ToInt32", SystemUInt32 := "ToUInt32",
    SystemInt64 := "ToInt64", SystemUInt64 := "ToUInt64",
    SystemSingle := "ToSingle", SystemDouble := "ToDouble", SystemDecimal := "ToDecimal",
    SystemChar := "ToChar", SystemString := "ToString", SystemDateTime := "ToDateTime"]

  /** The table covers exactly the fifteen special types IsSimpleType lists. */
  lemma ConvertMethodsCoverSimpleTypes()
    ensures ConvertMethods.Keys == TypeSymbolExtensions.SimpleSpecials
  {
  }

  /** Every entry names a `Convert.To...` method; object and the types that
      are not special have none. */
  lemma ConvertMethodsAreConversions()
    ensures NoSpecial !in ConvertMethods && SystemObject !in ConvertMethods
    ensures forall k | k in ConvertMethods :: |ConvertMethods[k]| > 2 && ConvertMethods[k][..2] == "To"
  {
  }

  // ---------------------------------------------------------------------
  // Spelling

  /** How a copy of the builders spells a type reference (`global::` or
      nothing) and the context variable it passes (`ctx` or `context`). */
  datatype Dialect = Dialect(qualifier: string, contextName: string)

  const CurrentDialect := Dialect("global::", "ctx")

  // ---------------------------------------------------------------------
  // EnumMapSwitchStatement

  /** `x => x.Name == name` over fields. */
  function NamedField(name: string): FieldSym -> bool {
    (f: FieldSym) => f.name == name
  }

  /** The names of the source fields that get an arm: each const field, in
      declaration order, whose name the destination has; the destination
      field is looked up with SingleOrDefault, which throws on two. */
  function EnumArms(sourceFields: seq<FieldSym>, destinationFields: seq<FieldSym>): Result<seq<string>, Fault>
    decreases |sourceFields|
  {
    if sourceFields == [] then Success([])
    else
      var arms :- EnumArms(sourceFields[..|sourceFields| - 1], destinationFields);
      var field := sourceFields[|sourceFields| - 1];
      if !field.isConst then Success(arms)
      else
        var destinationField :- SingleOrDefault(destinationFields, NamedField(field.name));
        Success(arms + (if destinationField.Some? then [field.name] else []))
  }

  /** `{source}.{name} => {destination}.{name}, ` */
  function EnumArmText(q: string, source: TypeSym, destination: TypeSym, name: string): string {
    q + source.display + "." + name + " => " + q + destination.display + "." + name + ", "
  }

  function EnumArmsText(q: string, source: TypeSym, destination: TypeSym, names: seq<string>): string
    decreases |names|
  {
    if names == [] then ""
    else EnumArmsText(q, source, destination, names[..|names| - 1]) + EnumArmText(q, source, destination, names[|names| - 1])
  }

  /** The final arm: an EnumMissingFieldException naming both enums and the value, or `default`. */
  function EnumDefaultArm(sourceObjectName: string, source: TypeSym, destination: TypeSym, throwIfInvalid: bool): string {
    if throwIfInvalid then
      "_ =>  throw new AotObjectMapper.Abstractions.Exceptions.EnumMissingFieldException($\"Could not map `"
      + source.name + "` to `" + destination.name + "` as `" + destination.name
      + "` does not contain field `{" + sourceObjectName + "}`.\")"
    else "_ => default"
  }

  /** The text of the enum switch. */
  function EnumSwitchText(q: string, sourceObjectName: string, source: TypeSym, destination: TypeSym, throwIfInvalid: bool)
    : Result<string, Fault>
  {
    var arms :- EnumArms(source.fields, destination.fields);
    Success(EnumSwitchFrom(q, sourceObjectName, source, destination, arms, throwIfInvalid))
  }

  /** The switch over the given arms, closed by the default arm. */
  function EnumSwitchFrom(q: string, sourceObjectName: string, source: TypeSym, destination: TypeSym,
                          arms: seq<string>, throwIfInvalid: bool): string {
    sourceObjectName + " switch { " + EnumArmsText(q, source, destination, arms)
    + EnumDefaultArm(sourceObjectName, source, destination, throwIfInvalid) + " }"
  }

  lemma {:induction false} EnumArmsPrefixFailure(fs: seq<FieldSym>, ds: seq<FieldSym>, n: nat)
    requires n <= |fs| && EnumArms(fs[..n], ds).Failure?
    ensures EnumArms(fs, ds) == EnumArms(fs[..n], ds)
    decreases |fs|
  {
    if n < |fs| {
      assert fs[..|fs| - 1][..n] == fs[..n];
      EnumArmsPrefixFailure(fs[..|fs| - 1], ds, n);
    } else {
      assert fs[..n] == fs;
    }
  }

  /** One more source field: a field that is not const adds nothing, a
      const one adds its name when the destination has it once. */
  lemma EnumArmsPrefixStep(fs: seq<FieldSym>, ds: seq<FieldSym>, k: nat, arms: seq<string>)
    requires k < |fs| && EnumArms(fs[..k], ds) == Success(arms)
    ensures var d := SingleOrDefault(ds, NamedField(fs[k].name));
            && (!fs[k].isConst ==> EnumArms(fs[..k + 1], ds) == Success(arms))
            && (fs[k].isConst && d.Failure? ==> EnumArms(fs[..k + 1], ds) == Failure(d.error))
            && (fs[k].isConst && d == Success(None) ==> EnumArms(fs[..k + 1], ds) == Success(arms))
            && (fs[k].isConst && d.Success? && d.value.Some? ==> EnumArms(fs[..k + 1], ds) == Success(arms + [fs[k].name]))
  {
    var prefix := fs[..k + 1];
    assert prefix[..|prefix| - 1] == fs[..k] && prefix[|prefix| - 1] == fs[k];
    assert prefix != [];
    var d := SingleOrDefault(ds, NamedField(fs[k].name));
    if fs[k].isConst && d.Failure? {
      assert EnumArms(prefix, ds) == Failure(d.error);
    }
    if fs[k].isConst && d.Success? {
      assert EnumArms(prefix, ds) == Success(arms + (if d.value.Some? then [fs[k].name] else []));
      assert arms + [] == arms;
    }
  }

  lemma EnumArmsTextSnoc(head: string, q: string, source: TypeSym, destination: TypeSym, names: seq<string>, name: string)
    ensures head + EnumArmsText(q, source, destination, names + [name])
            == head + EnumArmsText(q, source, destination, names) + EnumArmText(q, source, destination, name)
  {
    assert (names + [name])[..|names|] == names;
  }

  /** The switch, built as the loop builds it, in the given spelling. */
  method BuildEnumSwitch(q: string, sourceObjectName: string, source: TypeSym, destination: TypeSym, throwIfInvalid: bool)
    returns (r: Result<string, Fault>)
    ensures r == EnumSwitchText(q, sourceObjectName, source, destination, throwIfInvalid)
  {
    var sb := sourceObjectName + " switch { ";
    ghost var head, arms: seq<string> := sb, [];
    var fields := source.fields;
    for k := 0 to |fields|
      invariant EnumArms(fields[..k], destination.fields) == Success(arms)
      invariant sb == head + EnumArmsText(q, source, destination, arms)
    {
      var fieldSymbol := fields[k];
      EnumArmsPrefixStep(fields, destination.fields, k, arms);
      if !fieldSymbol.isConst {
        continue;
      }
      var destinationField := SingleOrDefault(destination.fields, NamedField(fieldSymbol.name));
      if destinationField.Failure? {
        EnumArmsPrefixFailure(fields, destination.fields, k + 1);
        return Failure(destinationField.error);
      }
      if destinationField.value.Some? {
        var name := destinationField.value.value.name;
        assert name == fieldSymbol.name;
        EnumArmsTextSnoc(head, q, source, destination, arms, name);
        var arm := EnumArmText(q, source, destination, name);
        sb := sb + arm;
        arms := arms + [name];
      }
    }
    assert fields[..|fields|] == fields;
    sb := sb + EnumDefaultArm(sourceObjectName, source, destination, throwIfInvalid);
    sb := sb + " }";
    assert sb == EnumSwitchFrom(q, sourceObjectName, source, destination, arms, throwIfInvalid);
    r := Success(sb);
  }

  /** EnumMapSwitchStatement (GeneratorUtils.cs): the switch with `global::`-qualified arms. */
  method EnumMapSwitchStatement(sourceObjectName: string, source: TypeSym, destination: TypeSym, throwIfInvalid: bool)
    returns (r: Result<string, Fault>)
    ensures r == EnumSwitchText(CurrentDialect.qualifier, sourceObjectName, source, destination, throwIfInvalid)
  {
    r := BuildEnumSwitch(CurrentDialect.qualifier, sourceObjectName, source, destination, throwIfInvalid);
  }

  /** A const source field whose name the destination declares. */
  function HasArm(destinationFields: seq<FieldSym>): FieldSym -> bool {
    (f: FieldSym) => f.isConst && exists g: FieldSym | g in destinationFields :: g.name == f.name
  }

  /** A const source field whose name the destination declares more than once. */
  function Ambiguous(destinationFields: seq<FieldSym>): FieldSym -> bool {
    (f: FieldSym) => f.isConst && CountWhere(destinationFields, NamedField(f.name)) > 1
  }

  function NamesOf(fs: seq<FieldSym>): (r: seq<string>)
    ensures |r| == |fs| && forall i | 0 <= i < |fs| :: r[i] == fs[i].name
  {
    seq(|fs|, i requires 0 <= i < |fs| => fs[i].name)
  }

  /** The lookup throws exactly when some const source field's name is
      declared more than once by the destination. */
  lemma {:induction false} EnumArmsFailure(fs: seq<FieldSym>, ds: seq<FieldSym>)
    ensures EnumArms(fs, ds).Failure? <==> exists i | 0 <= i < |fs| :: Ambiguous(ds)(fs[i])
    decreases |fs|
  {
    if fs != [] {
      var init, last := fs[..|fs| - 1], fs[|fs| - 1];
      EnumArmsFailure(init, ds);
      assert forall i | 0 <= i < |init| :: init[i] == fs[i];
      if exists i | 0 <= i < |fs| :: Ambiguous(ds)(fs[i]) {
        var i :| 0 <= i < |fs| && Ambiguous(ds)(fs[i]);
        if i < |init| {
          assert Ambiguous(ds)(init[i]);
        }
      }
    }
  }

  /** A destination field name is present exactly when it is counted. */
  lemma NamePresent(ds: seq<FieldSym>, name: string)
    ensures CountWhere(ds, NamedField(name)) > 0 <==> exists g: FieldSym | g in ds :: g.name == name
  {
    CountWhereZero(ds, NamedField(name));
    if exists g: FieldSym | g in ds :: g.name == name {
      var g: FieldSym :| g in ds && g.name == name;
      var i :| 0 <= i < |ds| && ds[i] == g;
      assert NamedField(name)(ds[i]);
    }
  }

  /** One arm per const source field whose name the destination has, in
      source declaration order, and none for the others. */
  lemma {:induction false} EnumArmsSelectsMatchingFields(fs: seq<FieldSym>, ds: seq<FieldSym>)
    ensures EnumArms(fs, ds).Success? ==> EnumArms(fs, ds).value == NamesOf(Where(fs, HasArm(ds)))
    decreases |fs|
  {
    if fs != [] && EnumArms(fs, ds).Success? {
      var init, last := fs[..|fs| - 1], fs[|fs| - 1];
      assert fs == init + [last];
      EnumArmsSelectsMatchingFields(init, ds);
      WhereSnoc(init, last, HasArm(ds));
      EnumArmsLast(fs, ds);
      var more := if HasArm(ds)(last) then [last] else [];
      NamesOfAppend(Where(init, HasArm(ds)), more);
    }
  }

  /** The last source field contributes its name exactly when it has an arm. */
  lemma EnumArmsLast(fs: seq<FieldSym>, ds: seq<FieldSym>)
    requires fs != [] && EnumArms(fs, ds).Success?
    ensures EnumArms(fs[..|fs| - 1], ds).Success?
    ensures EnumArms(fs, ds).value
            == EnumArms(fs[..|fs| - 1], ds).value + (if HasArm(ds)(fs[|fs| - 1]) then [fs[|fs| - 1].name] else [])
  {
    NamePresent(ds, fs[|fs| - 1].name);
  }

  lemma NamesOfAppend(a: seq<FieldSym>, b: seq<FieldSym>)
    ensures NamesOf(a + b) == NamesOf(a) + NamesOf(b)
  {
  }

  // ---------------------------------------------------------------------
  // Polymorphic dispatch

  /** One dispatch candidate: a subtype with a Map attribute of this mapper,
      or a subtype handled by another mapper class. */
  datatype DispatchArm = MapArm(subtype: TypeSym) | MapperArm(subtype: TypeSym, mapper: TypeSym)

  /** A `switch` arm or an `if` statement. */
  datatype ArmForm = SwitchArm | IfStatement

  /** `attrs.FirstOrDefault(a => a.AttributeClass!.TypeArguments[k].Equals(t, SymbolEqualityComparer.Default))`:
      the comparison throws on an attribute with fewer type arguments. */
  function FirstWithTypeArg(attrs: seq<AttrData>, k: nat, t: TypeSym): Result<Option<AttrData>, Fault> {
    FirstOrDefaultTry(attrs, TypeArgIs(k, t))
  }

  /** The lambda of that FirstOrDefault. */
  function TypeArgIs(k: nat, t: TypeSym): AttrData -> Result<bool, Fault> {
    (a: AttrData) => TypeArgEquals(a, k, t)
  }

  /** The first attribute whose k-th type argument is t, after attributes
      whose k-th type argument is something else; none when no attribute has
      it; an exception when an attribute before the first match has too few
      type arguments. */
  lemma FirstWithTypeArgCharacterized(attrs: seq<AttrData>, k: nat, t: TypeSym)
    ensures var r := FirstWithTypeArg(attrs, k, t);
            && (r.Success? && r.value.Some? ==>
                  exists i | 0 <= i < |attrs| :: attrs[i] == r.value.value && TypeArgEquals(attrs[i], k, t) == Success(true)
                                                 && forall j | 0 <= j < i :: TypeArgEquals(attrs[j], k, t) == Success(false))
            && (r.Success? && r.value.None? ==> forall i | 0 <= i < |attrs| :: TypeArgEquals(attrs[i], k, t) == Success(false))
            && (r.Failure? ==> exists i | 0 <= i < |attrs| :: TypeArgEquals(attrs[i], k, t).Failure?
                                                              && forall j | 0 <= j < i :: TypeArgEquals(attrs[j], k, t) == Success(false))
  {
    FirstOrDefaultTryCharacterized(attrs, TypeArgIs(k, t));
  }


  /** The candidates of one subtype: the first Map attribute whose source is
      the subtype, then the first UseMap attribute whose source is the subtype. */
  function ArmsFor(subtype: TypeSym, maps: seq<AttrData>, otherMappers: seq<AttrData>): Result<seq<DispatchArm>, Fault> {
    var mapAttr :- FirstWithTypeArg(maps, 0, subtype);
    var mapper :- FirstWithTypeArg(otherMappers, 1, subtype);
    Success(ArmsFrom(subtype, mapAttr, mapper))
  }

  /** The candidates of one subtype from its two lookups. */
  function ArmsFrom(subtype: TypeSym, mapAttr: Option<AttrData>, mapper: Option<AttrData>): seq<DispatchArm> {
    (if mapAttr.Some? then [MapArm(subtype)] else [])
    + (if mapper.Some? then [MapperArm(subtype, MapperClass(mapper.value))] else [])
  }

  /** `mapper.AttributeClass!.TypeArguments[0]`, or the attribute itself when it has none. */
  function MapperClass(a: AttrData): TypeSym {
    if a.attrClass.Some? && |a.attrClass.value.generics| > 0 then a.attrClass.value.generics[0].argument.sym
    else TypeSym("", "", "", ErrorKind, NoSpecial, NoSpecial, false, None, [], [], [], None, None, [], [], [], [], [])
  }

  /** The candidates in subtype order. */
  function DispatchArms(subtypes: seq<TypeSym>, maps: seq<AttrData>, otherMappers: seq<AttrData>): Result<seq<DispatchArm>, Fault>
    decreases |subtypes|
  {
    if subtypes == [] then Success([])
    else
      var arms :- DispatchArms(subtypes[..|subtypes| - 1], maps, otherMappers);
      var more :- ArmsFor(subtypes[|subtypes| - 1], maps, otherMappers);
      Success(arms + more)
  }

  /** `t{i}`: the pattern variable of the i-th arm. */
  function Binder(i: nat): string {
    "t" + NatToString(i)
  }

  /** The i-th candidate as a switch arm or an if statement. */
  function ArmText(d: Dialect, form: ArmForm, sourceObjectName: string, arm: DispatchArm, i: nat): string {
    var pattern := d.qualifier + arm.subtype.display + " " + Binder(i);
    var call := (if arm.MapArm? then "Map" else d.qualifier + arm.mapper.display + ".Map")
                + "(" + Binder(i) + ", " + d.contextName + ")";
    match form
    case SwitchArm => " " + pattern + " => " + call + ","
    case IfStatement => "if (" + sourceObjectName + " is " + pattern + ") return " + call + ";" + NewLine
  }

  /** The candidates, numbered from 0 in order. */
  function ArmsText(d: Dialect, form: ArmForm, sourceObjectName: string, arms: seq<DispatchArm>): string
    decreases |arms|
  {
    if arms == [] then ""
    else ArmsText(d, form, sourceObjectName, arms[..|arms| - 1])
         + ArmText(d, form, sourceObjectName, arms[|arms| - 1], |arms| - 1)
  }

  /** Every arm writes something, so the arms' text is empty only without arms. */
  lemma {:induction false} ArmsTextEmpty(d: Dialect, form: ArmForm, sourceObjectName: string, arms: seq<DispatchArm>)
    ensures ArmsText(d, form, sourceObjectName, arms) == "" <==> arms == []
  {
    if arms != [] {
      var last := ArmText(d, form, sourceObjectName, arms[|arms| - 1], |arms| - 1);
      assert |last| > 0;
      assert |ArmsText(d, form, sourceObjectName, arms)| >= |last|;
    }
  }

  function DispatchText(d: Dialect, form: ArmForm, sourceObjectName: string, subtypes: seq<TypeSym>,
                        maps: seq<AttrData>, otherMappers: seq<AttrData>): Result<string, Fault>
  {
    var arms :- DispatchArms(subtypes, maps, otherMappers);
    Success(ArmsText(d, form, sourceObjectName, arms))
  }

  lemma {:induction false} DispatchArmsPrefixFailure(subtypes: seq<TypeSym>, maps: seq<AttrData>, otherMappers: seq<AttrData>, n: nat)
    requires n <= |subtypes| && DispatchArms(subtypes[..n], maps, otherMappers).Failure?
    ensures DispatchArms(subtypes, maps, otherMappers) == DispatchArms(subtypes[..n], maps, otherMappers)
    decreases |subtypes|
  {
    if n < |subtypes| {
      assert subtypes[..|subtypes| - 1][..n] == subtypes[..n];
      DispatchArmsPrefixFailure(subtypes[..|subtypes| - 1], maps, otherMappers, n);
    } else {
      assert subtypes[..n] == subtypes;
    }
  }

  /** `foreach (var a in attrs) if (a.AttributeClass!.TypeArguments[k].Equals(t)) { ...; break; }`: the first match. */
  method FindFirst(attrs: seq<AttrData>, k: nat, t: TypeSym) returns (r: Result<Option<AttrData>, Fault>)
    ensures r == FirstWithTypeArg(attrs, k, t)
  {
    for j := 0 to |attrs|
      invariant FirstWithTypeArg(attrs, k, t) == FirstWithTypeArg(attrs[j..], k, t)
    {
      assert attrs[j..][0] == attrs[j] && attrs[j..][1..] == attrs[j + 1..];
      var matches := TypeArgEquals(attrs[j], k, t);
      if matches.Failure? {
        return Failure(matches.error);
      }
      if matches.value {
        return Success(Some(attrs[j]));
      }
    }
    assert attrs[|attrs|..] == [];
    r := Success(None);
  }

  lemma ArmsTextSnoc(d: Dialect, form: ArmForm, sourceObjectName: string, arms: seq<DispatchArm>, arm: DispatchArm)
    ensures ArmsText(d, form, sourceObjectName, arms + [arm])
            == ArmsText(d, form, sourceObjectName, arms) + ArmText(d, form, sourceObjectName, arm, |arms|)
  {
    assert (arms + [arm])[..|arms|] == arms;
  }

  lemma DispatchArmsStep(subtypes: seq<TypeSym>, maps: seq<AttrData>, otherMappers: seq<AttrData>, k: nat,
                         mapAttr: Result<Option<AttrData>, Fault>, mapper: Result<Option<AttrData>, Fault>)
    requires k < |subtypes| && DispatchArms(subtypes[..k], maps, otherMappers).Success?
    requires mapAttr == FirstWithTypeArg(maps, 0, subtypes[k]) && mapper == FirstWithTypeArg(otherMappers, 1, subtypes[k])
    ensures mapAttr.Failure? ==> DispatchArms(subtypes, maps, otherMappers) == Failure(mapAttr.error)
    ensures mapAttr.Success? && mapper.Failure? ==> DispatchArms(subtypes, maps, otherMappers) == Failure(mapper.error)
    ensures mapAttr.Success? && mapper.Success? ==>
              DispatchArms(subtypes[..k + 1], maps, otherMappers)
              == Success(DispatchArms(subtypes[..k], maps, otherMappers).value + ArmsFrom(subtypes[k], mapAttr.value, mapper.value))
  {
    assert subtypes[..k + 1][..k] == subtypes[..k];
    if mapAttr.Failure? || mapper.Failure? {
      DispatchArmsPrefixFailure(subtypes, maps, otherMappers, k + 1);
    }
  }

  /** `sb.Append(...)` of one subtype's candidates, numbered after those
      already written; `i` counts the candidates written. */
  method AppendCandidates(d: Dialect, form: ArmForm, sourceObjectName: string, sb: string, ghost arms: seq<DispatchArm>,
                          i: nat, sourceType: TypeSym, mapAttr: Option<AttrData>, mapper: Option<AttrData>)
    returns (sb': string, i': nat)
    requires i == |arms| && sb == ArmsText(d, form, sourceObjectName, arms)
    ensures i' == |arms + ArmsFrom(sourceType, mapAttr, mapper)|
    ensures sb' == ArmsText(d, form, sourceObjectName, arms + ArmsFrom(sourceType, mapAttr, mapper))
  {
    sb', i' := sb, i;
    ghost var added: seq<DispatchArm> := [];
    Symbols.AppendEmpty(arms);
    if mapAttr.Some? {
      var arm := MapArm(sourceType);
      ArmsTextSnoc(d, form, sourceObjectName, arms + added, arm);
      sb' := sb' + ArmText(d, form, sourceObjectName, arm, i');
      Symbols.SnocAssoc(arms, added, arm);
      added := added + [arm];
      i' := i' + 1;
    }
    ghost var first := added;
    assert first == if mapAttr.Some? then [MapArm(sourceType)] else [];
    if mapper.Some? {
      var arm := MapperArm(sourceType, MapperClass(mapper.value));
      ArmsTextSnoc(d, form, sourceObjectName, arms + added, arm);
      sb' := sb' + ArmText(d, form, sourceObjectName, arm, i');
      Symbols.SnocAssoc(arms, added, arm);
      added := added + [arm];
      i' := i' + 1;
    } else {
      Symbols.AppendEmpty(first);
    }
    assert added == ArmsFrom(sourceType, mapAttr, mapper);
  }

  /** The nested loops of the dispatch builders, with the arm counter `i`. */
  method AppendDispatchArms(d: Dialect, form: ArmForm, sourceObjectName: string, subtypes: seq<TypeSym>,
                            maps: seq<AttrData>, otherMappers: seq<AttrData>) returns (r: Result<string, Fault>)
    ensures r == DispatchText(d, form, sourceObjectName, subtypes, maps, otherMappers)
  {
    var sb := "";
    var i := 0;
    ghost var arms: seq<DispatchArm> := [];
    for k := 0 to |subtypes|
      invariant DispatchArms(subtypes[..k], maps, otherMappers) == Success(arms)
      invariant i == |arms| && sb == ArmsText(d, form, sourceObjectName, arms)
    {
      var sourceType := subtypes[k];
      var mapAttr := FindFirst(maps, 0, sourceType);
      var mapper := FindFirst(otherMappers, 1, sourceType);
      DispatchArmsStep(subtypes, maps, otherMappers, k, mapAttr, mapper);
      if mapAttr.Failure? {
        return Failure(mapAttr.error);
      }
      if mapper.Failure? {
        return Failure(mapper.error);
      }
      sb, i := AppendCandidates(d, form, sourceObjectName, sb, arms, i, sourceType, mapAttr.value, mapper.value);
      arms := arms + ArmsFrom(sourceType, mapAttr.value, mapper.value);
    }
    assert subtypes[..|subtypes|] == subtypes;
    r := Success(sb);
  }

  /** The subtypes the polymorphism map lists for the source type. */
  function SubtypesOf(polymorphableTypes: InheritanceUtils.PolymorphismMap, sourceType: TypeSym): seq<TypeSym> {
    InheritanceUtils.Lookup(polymorphableTypes, Erase(sourceType))
  }

  /** The newer final arm: it names the runtime type of the value and the destination type. */
  function UnhandledArm(sourceObjectName: string, destinationType: TypeSym): string {
    "_ => throw new AotObjectMapper.Abstractions.Exceptions.UnhandledPolymorphicTypeException($\"Could not map type `{"
    + sourceObjectName + ".GetType().FullName}` to `" + destinationType.display
    + "` - no matching destination type found.\")"
  }

  /** NoInstanceTypeMapSwitchStatement (GeneratorUtils.cs), reading the info's
      PolymorphableTypes, SourceType, DestinationType, Maps and OtherMappers:
      the empty string without subtypes, otherwise a switch over the
      candidates that ends with the UnhandledPolymorphicTypeException arm. */
  method NoInstanceTypeMapSwitchStatement(sourceObjectName: string, polymorphableTypes: InheritanceUtils.PolymorphismMap,
                                          sourceType: TypeSym, destinationType: TypeSym,
                                          maps: seq<AttrData>, otherMappers: seq<AttrData>) returns (r: Result<string, Fault>)
    ensures SubtypesOf(polymorphableTypes, sourceType) == [] ==> r == Success("")
    ensures SubtypesOf(polymorphableTypes, sourceType) != [] ==>
              r == (var arms :- DispatchText(CurrentDialect, SwitchArm, sourceObjectName, SubtypesOf(polymorphableTypes, sourceType), maps, otherMappers);
                    Success(sourceObjectName + " switch {" + arms + UnhandledArm(sourceObjectName, destinationType) + " }"))
  {
    var sourceTypes := SubtypesOf(polymorphableTypes, sourceType);
    if |sourceTypes| == 0 {
      return Success("");
    }
    var sb := sourceObjectName + " switch {";
    var arms :- AppendDispatchArms(CurrentDialect, SwitchArm, sourceObjectName, sourceTypes, maps, otherMappers);
    sb := sb + arms;
    sb := sb + UnhandledArm(sourceObjectName, destinationType);
    sb := sb + " }";
    r := Success(sb);
  }

  /** InstanceTypeMapSwitchStatement (GeneratorUtils.cs): false (None) without
      subtypes, otherwise true with one if statement per candidate. */
  method InstanceTypeMapSwitchStatement(sourceObjectName: string, polymorphableTypes: InheritanceUtils.PolymorphismMap,
                                        sourceType: TypeSym, maps: seq<AttrData>, otherMappers: seq<AttrData>)
    returns (r: Result<Option<string>, Fault>)
    ensures SubtypesOf(polymorphableTypes, sourceType) == [] ==> r == Success(None)
    ensures SubtypesOf(polymorphableTypes, sourceType) != [] ==>
              r == (var arms :- DispatchText(CurrentDialect, IfStatement, sourceObjectName, SubtypesOf(polymorphableTypes, sourceType), maps, otherMappers);
                    Success(Some(arms)))
  {
    var sourceTypes := SubtypesOf(polymorphableTypes, sourceType);
    if |sourceTypes| == 0 {
      return Success(None);
    }
    var statement :- AppendDispatchArms(CurrentDialect, IfStatement, sourceObjectName, sourceTypes, maps, otherMappers);
    r := Success(Some(statement));
  }

  /** The candidates of one subtype are backed by its attributes. */
  lemma ArmsForSound(subtype: TypeSym, maps: seq<AttrData>, otherMappers: seq<AttrData>)
    ensures var r := ArmsFor(subtype, maps, otherMappers);
            r.Success? ==> forall a | a in r.value ::
              && a.subtype == subtype
              && (a.MapArm? ==> exists m | m in maps :: TypeArgEquals(m, 0, subtype) == Success(true))
              && (a.MapperArm? ==> exists m | m in otherMappers ::
                                     TypeArgEquals(m, 1, subtype) == Success(true) && AttrTypeArg(m, 0) == Success(a.mapper))
  {
    var mapAttr, mapper := FirstWithTypeArg(maps, 0, subtype), FirstWithTypeArg(otherMappers, 1, subtype);
    if mapAttr.Success? && mapper.Success? {
      FirstWithTypeArgCharacterized(maps, 0, subtype);
      FirstWithTypeArgCharacterized(otherMappers, 1, subtype);
      if mapper.value.Some? {
        assert AttrTypeArg(mapper.value.value, 0) == Success(MapperClass(mapper.value.value));
      }
    }
  }

  /** An attribute for the subtype yields its candidate. */
  lemma ArmsForComplete(subtype: TypeSym, maps: seq<AttrData>, otherMappers: seq<AttrData>)
    ensures var r := ArmsFor(subtype, maps, otherMappers);
            r.Success? ==>
              && ((exists m | m in maps :: TypeArgEquals(m, 0, subtype) == Success(true)) ==> MapArm(subtype) in r.value)
              && ((exists m | m in otherMappers :: TypeArgEquals(m, 1, subtype) == Success(true)) ==>
                    exists a | a in r.value :: a.MapperArm? && a.subtype == subtype)
  {
    var mapAttr, mapper := FirstWithTypeArg(maps, 0, subtype), FirstWithTypeArg(otherMappers, 1, subtype);
    if mapAttr.Success? && mapper.Success? {
      var arms := ArmsFrom(subtype, mapAttr.value, mapper.value);
      FirstWithTypeArgPresent(maps, 0, subtype);
      FirstWithTypeArgPresent(otherMappers, 1, subtype);
      if mapAttr.value.Some? {
        assert arms[0] == MapArm(subtype);
      }
      if mapper.value.Some? {
        assert arms[|arms| - 1].MapperArm? && arms[|arms| - 1].subtype == subtype;
      }
    }
  }

  /** A lookup that succeeds finds something when some attribute matches. */
  lemma FirstWithTypeArgPresent(attrs: seq<AttrData>, k: nat, t: TypeSym)
    ensures FirstWithTypeArg(attrs, k, t).Success? && (exists m | m in attrs :: TypeArgEquals(m, k, t) == Success(true))
            ==> FirstWithTypeArg(attrs, k, t).value.Some?
  {
    if FirstWithTypeArg(attrs, k, t).Success? && FirstWithTypeArg(attrs, k, t).value.None? {
      FirstWithTypeArgCharacterized(attrs, k, t);
      forall m | m in attrs
        ensures TypeArgEquals(m, k, t) == Success(false)
      {
        var i :| 0 <= i < |attrs| && attrs[i] == m;
      }
    }
  }

  /** Each candidate is sound: its subtype is one of the listed subtypes, a
      Map arm has a Map attribute for that subtype, and a mapper arm has a
      UseMap attribute for it whose first type argument is the mapper called. */
  lemma {:induction false} DispatchArmsSound(subtypes: seq<TypeSym>, maps: seq<AttrData>, otherMappers: seq<AttrData>)
    ensures var r := DispatchArms(subtypes, maps, otherMappers);
            r.Success? ==> forall a | a in r.value ::
              && a.subtype in subtypes
              && (a.MapArm? ==> exists m | m in maps :: TypeArgEquals(m, 0, a.subtype) == Success(true))
              && (a.MapperArm? ==> exists m | m in otherMappers ::
                                     TypeArgEquals(m, 1, a.subtype) == Success(true) && AttrTypeArg(m, 0) == Success(a.mapper))
    decreases |subtypes|
  {
    if subtypes != [] {
      var init, last := subtypes[..|subtypes| - 1], subtypes[|subtypes| - 1];
      DispatchArmsSound(init, maps, otherMappers);
      ArmsForSound(last, maps, otherMappers);
      assert forall t | t in init :: t in subtypes;
    }
  }

  /** Each candidate is complete: a listed subtype with a matching Map
      attribute gets a Map arm, and one with a matching UseMap attribute
      gets a mapper arm. */
  lemma {:induction false} DispatchArmsComplete(subtypes: seq<TypeSym>, maps: seq<AttrData>, otherMappers: seq<AttrData>, i: nat)
    requires i < |subtypes|
    ensures var r := DispatchArms(subtypes, maps, otherMappers);
            r.Success? ==>
              && ((exists m | m in maps :: TypeArgEquals(m, 0, subtypes[i]) == Success(true)) ==> MapArm(subtypes[i]) in r.value)
              && ((exists m | m in otherMappers :: TypeArgEquals(m, 1, subtypes[i]) == Success(true)) ==>
                    exists a | a in r.value :: a.MapperArm? && a.subtype == subtypes[i])
    decreases |subtypes|
  {
    var init, last := subtypes[..|subtypes| - 1], subtypes[|subtypes| - 1];
    if i < |subtypes| - 1 {
      DispatchArmsComplete(init, maps, otherMappers, i);
      assert init[i] == subtypes[i];
    } else {
      ArmsForComplete(last, maps, otherMappers);
    }
  }

  /** The arms' pattern variables t0, t1, ... are pairwise distinct. */
  lemma BindersDistinct(i: nat, j: nat)
    requires i != j
    ensures Binder(i) != Binder(j)
  {
    if Binder(i) == Binder(j) {
      assert NatToString(i) == Binder(i)[1..] == Binder(j)[1..] == NatToString(j);
      NatToStringInjective(i, j);
    }
  }

  // ---------------------------------------------------------------------
  // GetFormatProviderExpression

  const UseFormatProviderName := "UseFormatProviderAttribute"

  /** A static property whose type is IFormatProvider or implements it. */
  predicate ProviderProperty(p: PropSym, formatProvider: TypeSym) {
    p.isStatic && (Implements(p.propType.sym, formatProvider) || SymEq(p.propType.sym, formatProvider))
  }

  /** `[UseFormatProvider]` */
  predicate DefaultMarker(a: AttrData) {
    a.attrClass.Some? && a.attrClass.value.name == UseFormatProviderName && |a.attrClass.value.generics| == 0
  }

  /** `[UseFormatProvider<TSource, TDestination>]` for exactly this conversion. */
  predicate OverrideMarker(a: AttrData, source: TypeSym, destination: TypeSym) {
    && a.attrClass.Some? && a.attrClass.value.name == UseFormatProviderName && |a.attrClass.value.generics| == 2
    && SymEq(a.attrClass.value.generics[0].argument.sym, source)
    && SymEq(a.attrClass.value.generics[1].argument.sym, destination)
  }

  /** Some attribute is a default marker. */
  predicate AnyDefault(attrs: seq<AttrData>) {
    exists a | a in attrs :: DefaultMarker(a)
  }

  /** Some attribute is an override marker for this conversion. */
  predicate AnyOverride(attrs: seq<AttrData>, source: TypeSym, destination: TypeSym) {
    exists a | a in attrs :: OverrideMarker(a, source, destination)
  }

  /** Both markers over a prefix grown by one attribute. */
  lemma AnyMarkerSnoc(attrs: seq<AttrData>, j: nat, source: TypeSym, destination: TypeSym)
    requires j < |attrs|
    ensures AnyDefault(attrs[..j + 1]) <==> AnyDefault(attrs[..j]) || DefaultMarker(attrs[j])
    ensures AnyOverride(attrs[..j + 1], source, destination) <==> AnyOverride(attrs[..j], source, destination) || OverrideMarker(attrs[j], source, destination)
  {
    Symbols.TakeSnoc(attrs, j);
  }

  function DefaultProvider(formatProvider: TypeSym): PropSym -> bool {
    p => ProviderProperty(p, formatProvider) && AnyDefault(p.attributes)
  }

  function OverrideProvider(formatProvider: TypeSym, source: TypeSym, destination: TypeSym): PropSym -> bool {
    p => ProviderProperty(p, formatProvider) && AnyOverride(p.attributes, source, destination)
  }

  /** `Nullable<T>` with one type argument stands for T. */
  function Effective(t: TypeSym): TypeSym {
    if t.definitionSpecial == SystemNullableT && |t.generics| == 1 then t.generics[0].argument.sym else t
  }

  /** The name of the first property `p` accepts. */
  function FirstNameWhere(ps: seq<PropSym>, p: PropSym -> bool): Option<string> {
    if ps == [] then None
    else if p(ps[0]) then Some(ps[0].name)
    else FirstNameWhere(ps[1..], p)
  }

  /** FirstNameWhere finds nothing exactly when no property is accepted, and
      otherwise names the first accepted one. */
  lemma {:induction false} FirstNameWhereCharacterized(ps: seq<PropSym>, p: PropSym -> bool)
    ensures FirstNameWhere(ps, p).None? <==> forall i | 0 <= i < |ps| :: !p(ps[i])
    ensures FirstNameWhere(ps, p).Some? ==>
              exists i | 0 <= i < |ps| :: p(ps[i]) && FirstNameWhere(ps, p).value == ps[i].name && forall j | 0 <= j < i :: !p(ps[j])
  {
    if ps != [] && !p(ps[0]) {
      FirstNameWhereCharacterized(ps[1..], p);
      assert forall j | 1 <= j < |ps| :: ps[j] == ps[1..][j - 1];
      var r := FirstNameWhere(ps[1..], p);
      if r.Some? {
        var i :| 0 <= i < |ps[1..]| && p(ps[1..][i]) && r.value == ps[1..][i].name && forall j | 0 <= j < i :: !p(ps[1..][j]);
        assert p(ps[i + 1]) && forall j | 0 <= j < i + 1 :: !p(ps[j]);
      }
    }
  }

  /** The provider selection: nothing without IFormatProvider; otherwise the
      first provider property marked for exactly this (unwrapped) conversion,
      else the first one marked as the default, else nothing. */
  function SelectFormatProvider(mapper: TypeSym, c: Compilation, sourceType: TypeSym, destinationType: TypeSym): Option<string> {
    if c.iFormatProvider.None? then None
    else
      var specific := FirstNameWhere(mapper.properties, OverrideProvider(c.iFormatProvider.value, Effective(sourceType), Effective(destinationType)));
      if specific.Some? then specific
      else FirstNameWhere(mapper.properties, DefaultProvider(c.iFormatProvider.value))
  }

  /** The attribute loop over one provider property: whether it carries an
      override for this conversion, and else the default name so far. */
  method ScanProviderAttributes(prop: PropSym, srcEffective: TypeSym, destEffective: TypeSym, defaultName: Option<string>)
    returns (isOverride: bool, defaultName': Option<string>)
    ensures isOverride <==> AnyOverride(prop.attributes, srcEffective, destEffective)
    ensures !isOverride ==>
              defaultName' == if defaultName.Some? then defaultName
                              else if AnyDefault(prop.attributes) then Some(prop.name) else None
  {
    defaultName' := defaultName;
    var attrs := prop.attributes;
    for j := 0 to |attrs|
      invariant !AnyOverride(attrs[..j], srcEffective, destEffective)
      invariant defaultName'
                == if defaultName.Some? then defaultName
                   else if AnyDefault(attrs[..j]) then Some(prop.name) else None
    {
      var attr := attrs[j];
      AnyMarkerSnoc(attrs, j, srcEffective, destEffective);
      if attr.attrClass.None? {
        continue;
      }
      if attr.attrClass.value.name == UseFormatProviderName && |attr.attrClass.value.generics| == 0 {
        if defaultName'.None? {
          defaultName' := Some(prop.name);
        }
        continue;
      }
      if attr.attrClass.value.name == UseFormatProviderName && |attr.attrClass.value.generics| == 2 {
        var src := attr.attrClass.value.generics[0].argument.sym;
        var dst := attr.attrClass.value.generics[1].argument.sym;
        if SymEq(src, srcEffective) && SymEq(dst, destEffective) {
          assert OverrideMarker(attr, srcEffective, destEffective) && attr in prop.attributes;
          return true, defaultName';
        }
      }
    }
    assert attrs[..|attrs|] == attrs;
    isOverride := false;
  }

  /** One step of the property loop: a property that is not a static
      IFormatProvider is skipped; otherwise its attributes are scanned. */
  method ScanProviderProperty(prop: PropSym, iFormatProvider: TypeSym, srcEffective: TypeSym, destEffective: TypeSym, defaultName: Option<string>)
    returns (isOverride: bool, defaultName': Option<string>)
    ensures isOverride <==> OverrideProvider(iFormatProvider, srcEffective, destEffective)(prop)
    ensures !isOverride ==>
              defaultName' == if defaultName.Some? then defaultName
                              else if DefaultProvider(iFormatProvider)(prop) then Some(prop.name) else None
  {
    if !prop.isStatic {
      return false, defaultName;
    }
    if !Implements(prop.propType.sym, iFormatProvider) && !SymEq(prop.propType.sym, iFormatProvider) {
      return false, defaultName;
    }
    isOverride, defaultName' := ScanProviderAttributes(prop, srcEffective, destEffective, defaultName);
  }

  lemma FirstNameStep(ps: seq<PropSym>, k: nat, p: PropSym -> bool)
    requires k < |ps|
    ensures FirstNameWhere(ps[k..], p) == if p(ps[k]) then Some(ps[k].name) else FirstNameWhere(ps[k + 1..], p)
  {
    Symbols.DropStep(ps, k);
  }

  /** GetFormatProviderExpression: the property scan with an early return
      and a first-wins default. */
  method GetFormatProviderExpression(mapper: TypeSym, c: Compilation, sourceType: TypeSym, destinationType: TypeSym)
    returns (r: Option<string>)
    ensures r == SelectFormatProvider(mapper, c, sourceType, destinationType)
  {
    var srcEffective := if sourceType.definitionSpecial == SystemNullableT && |sourceType.generics| == 1
                        then sourceType.generics[0].argument.sym else sourceType;
    var destEffective := if destinationType.definitionSpecial == SystemNullableT && |destinationType.generics| == 1
                         then destinationType.generics[0].argument.sym else destinationType;
    if c.iFormatProvider.None? {
      return None;
    }
    var iFormatProvider := c.iFormatProvider.value;
    assert srcEffective == Effective(sourceType) && destEffective == Effective(destinationType);
    ghost var specific := OverrideProvider(iFormatProvider, srcEffective, destEffective);
    ghost var fallback := DefaultProvider(iFormatProvider);
    var defaultProviderPropertyName: Option<string> := None;
    var props := mapper.properties;
    for k := 0 to |props|
      invariant FirstNameWhere(props, specific) == FirstNameWhere(props[k..], specific)
      invariant FirstNameWhere(props, fallback)
                == if defaultProviderPropertyName.Some? then defaultProviderPropertyName else FirstNameWhere(props[k..], fallback)
    {
      var prop := props[k];
      FirstNameStep(props, k, specific);
      FirstNameStep(props, k, fallback);
      var isOverride;
      isOverride, defaultProviderPropertyName := ScanProviderProperty(prop, iFormatProvider, srcEffective, destEffective, defaultProviderPropertyName);
      if isOverride {
        return Some(prop.name);
      }
    }
    assert props[|props|..] == [];
    r := defaultProviderPropertyName;
  }

  /** A Nullable<T> source selects the same provider as T itself. */
  lemma NullableSourceSameProvider(mapper: TypeSym, c: Compilation, sourceType: TypeSym, destinationType: TypeSym)
    requires sourceType.definitionSpecial == SystemNullableT && |sourceType.generics| == 1
    requires Effective(sourceType.generics[0].argument.sym) == sourceType.generics[0].argument.sym
    ensures SelectFormatProvider(mapper, c, sourceType, destinationType)
            == SelectFormatProvider(mapper, c, sourceType.generics[0].argument.sym, destinationType)
  {
  }

  /** A specific provider wins over any default, wherever the default is declared. */
  lemma SpecificBeatsDefault(mapper: TypeSym, c: Compilation, sourceType: TypeSym, destinationType: TypeSym, i: nat)
    requires c.iFormatProvider.Some? && i < |mapper.properties|
    requires OverrideProvider(c.iFormatProvider.value, Effective(sourceType), Effective(destinationType))(mapper.properties[i])
    ensures SelectFormatProvider(mapper, c, sourceType, destinationType).Some?
    ensures exists j | 0 <= j <= i :: SelectFormatProvider(mapper, c, sourceType, destinationType) == Some(mapper.properties[j].name)
                                       && OverrideProvider(c.iFormatProvider.value, Effective(sourceType), Effective(destinationType))(mapper.properties[j])
  {
    var specific := OverrideProvider(c.iFormatProvider.value, Effective(sourceType), Effective(destinationType));
    FirstNameWhereCharacterized(mapper.properties, specific);
    var j :| 0 <= j < |mapper.properties| && specific(mapper.properties[j])
             && FirstNameWhere(mapper.properties, specific).value == mapper.properties[j].name
             && forall k | 0 <= k < j :: !specific(mapper.properties[k]);
    assert j <= i;
  }
}
