/** The Roslyn symbol model the generator reads.  Each symbol service the C#
    code calls (GetMembers, BaseType, Interfaces, AllInterfaces, TypeArguments,
    GetAttributes, ...) is a field here; the compilation is reduced to the two
    well-known types the generator looks up by metadata name.

    Nullable annotations are not part of a type's identity: they sit on the
    use of a type (`TypeUse`), and `SymEq` erases them, as
    SymbolEqualityComparer.Default does. */
module Symbols {
  import opened Wrappers

  datatype TypeKind =
    | ClassKind | StructKind | InterfaceKind | EnumKind | DelegateKind
    | ArrayKind | TypeParameterKind | ErrorKind

  /** The SpecialType values the generator tests for (NoSpecial is SpecialType.None). */
  datatype SpecialType =
    | NoSpecial | SystemObject | SystemBoolean | SystemChar
    | SystemSByte | SystemByte | SystemInt16 | SystemUInt16
    | SystemInt32 | SystemUInt32 | SystemInt64 | SystemUInt64
    | SystemDecimal | SystemSingle | SystemDouble | SystemString
    | SystemDateTime | SystemNullableT | SystemIEnumerableT

  datatype NullableAnnotation = NoAnnotation | NotAnnotated | Annotated

  /** A constant attribute argument (TypedConstant): Value, or Values for arrays. */
  datatype TypedConst = StringConst(s: string) | IntConst(i: int) | ArrayConst(items: seq<TypedConst>) | NullConst

  /** A type symbol.  `special` is SpecialType, `definitionSpecial` is the
      SpecialType of OriginalDefinition (also ConstructedFrom), so that a
      constructed IEnumerable<int> has definitionSpecial == SystemIEnumerableT. */
  datatype TypeSym = TypeSym(
    name: string,                  // Name
    display: string,               // ToDisplayString()
    ns: string,                    // ContainingNamespace.ToDisplayString()
    kind: TypeKind,
    special: SpecialType,
    definitionSpecial: SpecialType,
    isReferenceType: bool,
    baseType: Option<TypeSym>,
    interfaces: seq<TypeSym>,      // Interfaces (declared directly)
    allInterfaces: seq<TypeSym>,   // AllInterfaces
    generics: seq<Generic>,        // TypeParameters[i].Name paired with TypeArguments[i]
    elementType: Option<TypeUse>,  // IArrayTypeSymbol.ElementType
    containingType: Option<TypeSym>,
    properties: seq<PropSym>,      // GetMembers().OfType<IPropertySymbol>()
    fields: seq<FieldSym>,         // GetMembers().OfType<IFieldSymbol>()
    methods: seq<MethodSym>,       // GetMembers().OfType<IMethodSymbol>()
    constructors: seq<CtorSym>,
    attributes: seq<AttrData>)     // GetAttributes()

  /** A use of a type, carrying the use site's NullableAnnotation. */
  datatype TypeUse = TypeUse(sym: TypeSym, annotation: NullableAnnotation)

  datatype Generic = Generic(paramName: string, argument: TypeUse)

  /** `owner` is the containing type's display name: two properties of the same
      name declared in a class and in its base are different symbols. */
  datatype PropSym = PropSym(
    name: string, owner: string, propType: TypeUse,
    hasGetter: bool, hasSetter: bool, isRequired: bool, isStatic: bool,
    attributes: seq<AttrData>, accessible: bool)

  datatype FieldSym = FieldSym(name: string, isConst: bool, accessible: bool)

  datatype CtorSym = CtorSym(isPublic: bool, parameterCount: nat)

  datatype ParamSym = ParamSym(name: string, paramType: TypeSym, attributes: seq<AttrData>)

  /** A method symbol; `locations` is the number of entries in Locations. */
  datatype MethodSym = MethodSym(
    name: string, isStatic: bool, parameters: seq<ParamSym>, returnType: TypeSym,
    generics: seq<Generic>, containingType: Option<TypeSym>,
    attributes: seq<AttrData>, locations: nat, accessible: bool)

  /** AttributeData: AttributeClass (null for an unresolved attribute) and ConstructorArguments. */
  datatype AttrData = AttrData(attrClass: Option<TypeSym>, ctorArgs: seq<TypedConst>)

  /** What `compilation.GetTypeByMetadataName` finds for the two names the generator asks for. */
  datatype Compilation = Compilation(iConvertible: Option<TypeSym>, iFormatProvider: Option<TypeSym>)

  /** The exceptions the generator's own code can raise. */
  datatype Fault =
    | SequenceNotSingle      // Single/SingleOrDefault saw more than one match
    | SequenceEmpty          // Single saw no match
    | IndexOutOfRange
    | InvalidCast
    | NullReference
    | DuplicateKey           // ToDictionary saw a key twice
    | Overflow               // Convert.ToInt32 of a value above int.MaxValue

  // ---------------------------------------------------------------------
  // Symbol equality (SymbolEqualityComparer.Default)

  /** The type with every nullable annotation on its type arguments and element type dropped. */
  function Erase(t: TypeSym): TypeSym
    decreases t
  {
    t.(generics := seq(|t.generics|, i requires 0 <= i < |t.generics| =>
                         Generic(t.generics[i].paramName, TypeUse(Erase(t.generics[i].argument.sym), NoAnnotation))),
       elementType := if t.elementType.Some? then Some(TypeUse(Erase(t.elementType.value.sym), NoAnnotation)) else None)
  }

  /** SymbolEqualityComparer.Default: identity up to nullable annotations. */
  predicate SymEq(a: TypeSym, b: TypeSym) {
    Erase(a) == Erase(b)
  }

  lemma {:induction false} EraseIdempotent(t: TypeSym)
    ensures Erase(Erase(t)) == Erase(t)
    decreases t
  {
    forall i | 0 <= i < |t.generics| ensures Erase(Erase(t.generics[i].argument.sym)) == Erase(t.generics[i].argument.sym) {
      EraseIdempotent(t.generics[i].argument.sym);
    }
    if t.elementType.Some? {
      EraseIdempotent(t.elementType.value.sym);
    }
    assert Erase(Erase(t)).generics == Erase(t).generics;
  }

  function TypeArguments(t: TypeSym): (r: seq<TypeSym>)
    ensures |r| == |t.generics|
  {
    seq(|t.generics|, i requires 0 <= i < |t.generics| => t.generics[i].argument.sym)
  }

  /** `type is INamedTypeSymbol`: everything but arrays and type parameters. */
  predicate IsNamed(t: TypeSym) {
    t.kind != ArrayKind && t.kind != TypeParameterKind
  }

  /** `type is INamedTypeSymbol named && named.OriginalDefinition.SpecialType is SpecialType.System_Nullable_T` */
  predicate IsNullableT(t: TypeSym) {
    IsNamed(t) && t.definitionSpecial == SystemNullableT
  }

  /** `type is IArrayTypeSymbol`: an array, with its element type. */
  predicate IsArray(t: TypeSym) {
    t.kind == ArrayKind && t.elementType.Some?
  }

  /** `t.AllInterfaces.Any(i => SymbolEqualityComparer.Default.Equals(i, iface))` */
  predicate Implements(t: TypeSym, iface: TypeSym) {
    exists i | 0 <= i < |t.allInterfaces| :: SymEq(t.allInterfaces[i], iface)
  }

  // ---------------------------------------------------------------------
  // Attribute access

  /** `attr.AttributeClass?.Name == name` */
  predicate AttrNamed(a: AttrData, name: string) {
    a.attrClass.Some? && a.attrClass.value.name == name
  }

  /** `attr.AttributeClass!.TypeArguments[k]`, with its two ways to throw. */
  function AttrTypeArg(a: AttrData, k: nat): (r: Result<TypeSym, Fault>)
    ensures r.Success? <==> a.attrClass.Some? && k < |a.attrClass.value.generics|
    ensures r.Success? ==> r.value == a.attrClass.value.generics[k].argument.sym
  {
    if a.attrClass.None? then Failure(NullReference)
    else if k < |a.attrClass.value.generics| then Success(a.attrClass.value.generics[k].argument.sym)
    else Failure(IndexOutOfRange)
  }

  /** `attr.AttributeClass!.TypeArguments[k].Equals(t, SymbolEqualityComparer.Default)` */
  function TypeArgEquals(a: AttrData, k: nat, t: TypeSym): (r: Result<bool, Fault>)
    ensures r.Success? <==> AttrTypeArg(a, k).Success?
    ensures r.Success? ==> (r.value <==> SymEq(AttrTypeArg(a, k).value, t))
  {
    var x :- AttrTypeArg(a, k);
    Success(SymEq(x, t))
  }

  /** `attr.ConstructorArguments[k]` */
  function CtorArg(a: AttrData, k: nat): (r: Result<TypedConst, Fault>)
    ensures r.Success? <==> k < |a.ctorArgs|
    ensures r.Success? ==> r.value == a.ctorArgs[k]
  {
    if k < |a.ctorArgs| then Success(a.ctorArgs[k]) else Failure(IndexOutOfRange)
  }

  // ---------------------------------------------------------------------
  // The LINQ operators the generator relies on

  function CountWhere<T>(s: seq<T>, p: T -> bool): nat {
    if s == [] then 0 else (if p(s[0]) then 1 else 0) + CountWhere(s[1..], p)
  }

  /** Where: the elements satisfying p, in order. */
  function Where<T(==)>(s: seq<T>, p: T -> bool): (r: seq<T>)
    ensures |r| == CountWhere(s, p)
    ensures forall i | 0 <= i < |r| :: r[i] in s && p(r[i])
    ensures forall i | 0 <= i < |s| && p(s[i]) :: s[i] in r
  {
    if s == [] then [] else (if p(s[0]) then [s[0]] else []) + Where(s[1..], p)
  }

  /** CountWhere is zero exactly when nothing matches. */
  lemma {:induction false} CountWhereZero<T>(s: seq<T>, p: T -> bool)
    ensures CountWhere(s, p) == 0 <==> forall i | 0 <= i < |s| :: !p(s[i])
  {
    if s != [] {
      CountWhereZero(s[1..], p);
      assert forall i | 1 <= i < |s| :: s[i] == s[1..][i - 1];
    }
  }

  /** A non-empty sequence is its front followed by its last element. */
  lemma SplitLast<T>(s: seq<T>)
    requires s != []
    ensures s[..|s| - 1] + [s[|s| - 1]] == s
  {
  }

  /** Appending one element after a concatenation. */
  lemma SnocAssoc<T>(a: seq<T>, b: seq<T>, x: T)
    ensures a + b + [x] == a + (b + [x])
  {
  }

  /** Prepending one element after a prefix. */
  lemma ConsAssoc<T>(a: seq<T>, x: T, b: seq<T>)
    ensures a + [x] + b == a + ([x] + b)
  {
  }

  /** A suffix of `a` followed by `b`, one element further on. */
  lemma DropConcatStep<T>(a: seq<T>, b: seq<T>, j: nat)
    requires j < |a|
    ensures (a[j..] + b)[0] == a[j] && (a[j..] + b)[1..] == a[j + 1..] + b
  {
  }

  /** The empty suffix of `a` followed by `b` is `b`. */
  lemma DropAllConcat<T>(a: seq<T>, b: seq<T>)
    ensures a[|a|..] + b == b
  {
  }

  /** The parts of a sequence grown by one element. */
  lemma SnocParts<T>(a: seq<T>, x: T)
    ensures (a + [x])[..|a|] == a && (a + [x])[|a|] == x
  {
  }

  /** Appending nothing. */
  lemma AppendEmpty<T>(a: seq<T>)
    ensures a + [] == a
  {
  }

  /** A prefix grown by one element. */
  lemma TakeSnoc<T>(s: seq<T>, j: nat)
    requires j < |s|
    ensures s[..j + 1] == s[..j] + [s[j]]
  {
  }

  /** A suffix is its first element followed by the next suffix. */
  lemma DropStep<T>(s: seq<T>, k: nat)
    requires k < |s|
    ensures s[k..][0] == s[k] && s[k..][1..] == s[k + 1..]
  {
  }

  /** Where over a sequence grown at the end. */
  lemma {:induction false} WhereSnoc<T>(s: seq<T>, x: T, p: T -> bool)
    ensures Where(s + [x], p) == Where(s, p) + (if p(x) then [x] else [])
  {
    if s == [] {
      assert s + [x] == [x];
    } else {
      assert (s + [x])[1..] == s[1..] + [x];
      WhereSnoc(s[1..], x, p);
    }
  }

  /** SingleOrDefault: no match gives null, one match gives it, two or more throw. */
  function SingleOrDefault<T(==)>(s: seq<T>, p: T -> bool): (r: Result<Option<T>, Fault>)
    ensures r == Success(None) <==> CountWhere(s, p) == 0
    ensures r.Success? && r.value.Some? <==> CountWhere(s, p) == 1
    ensures r.Failure? <==> CountWhere(s, p) > 1
    ensures r.Success? && r.value.Some? ==> r.value.value in s && p(r.value.value)
  {
    var w := Where(s, p);
    if |w| == 0 then Success(None)
    else if |w| == 1 then Success(Some(w[0]))
    else Failure(SequenceNotSingle)
  }

  /** Single: exactly one match, otherwise an exception. */
  function Single<T(==)>(s: seq<T>, p: T -> bool): (r: Result<T, Fault>)
    ensures r.Success? <==> CountWhere(s, p) == 1
    ensures r.Success? ==> r.value in s && p(r.value)
  {
    var w := Where(s, p);
    if |w| == 1 then Success(w[0])
    else if |w| == 0 then Failure(SequenceEmpty)
    else Failure(SequenceNotSingle)
  }

  /** FirstOrDefault: the first match, if any. */
  function FirstOrDefault<T(==)>(s: seq<T>, p: T -> bool): (r: Option<T>)
    ensures r.None? <==> forall i | 0 <= i < |s| :: !p(s[i])
    ensures r.Some? ==> exists i | 0 <= i < |s| :: s[i] == r.value && p(s[i]) && forall j | 0 <= j < i :: !p(s[j])
  {
    if s == [] then None
    else if p(s[0]) then Some(s[0])
    else
      var r := FirstOrDefault(s[1..], p);
      if r.Some? then
        var i :| 0 <= i < |s[1..]| && s[1..][i] == r.value && p(s[1..][i]) && forall j | 0 <= j < i :: !p(s[1..][j]);
        assert s[i + 1] == r.value && forall j | 0 <= j < i + 1 :: !p(s[j]);
        r
      else r
  }

  /** FirstOrDefault with a predicate that can throw: the predicate runs on
      the elements in order until it holds, and its exception escapes. */
  function FirstOrDefaultTry<T>(s: seq<T>, p: T -> Result<bool, Fault>): Result<Option<T>, Fault> {
    if s == [] then Success(None)
    else
      var here :- p(s[0]);
      if here then Success(Some(s[0])) else FirstOrDefaultTry(s[1..], p)
  }

  /** The first element the predicate accepts, after elements it rejects;
      none when it rejects them all; its first exception otherwise. */
  lemma {:induction false} FirstOrDefaultTryCharacterized<T>(s: seq<T>, p: T -> Result<bool, Fault>)
    ensures var r := FirstOrDefaultTry(s, p);
            && (r.Success? && r.value.Some? ==>
                  exists i | 0 <= i < |s| :: s[i] == r.value.value && p(s[i]) == Success(true)
                                             && forall j | 0 <= j < i :: p(s[j]) == Success(false))
            && (r.Success? && r.value.None? ==> forall i | 0 <= i < |s| :: p(s[i]) == Success(false))
            && (r.Failure? ==> exists i | 0 <= i < |s| :: p(s[i]) == Failure(r.error)
                                                           && forall j | 0 <= j < i :: p(s[j]) == Success(false))
  {
    if s != [] && p(s[0]) == Success(false) {
      var r := FirstOrDefaultTry(s[1..], p);
      FirstOrDefaultTryCharacterized(s[1..], p);
      assert forall j | 1 <= j < |s| :: s[j] == s[1..][j - 1];
      if r.Success? && r.value.Some? {
        var i :| 0 <= i < |s[1..]| && s[1..][i] == r.value.value && p(s[1..][i]) == Success(true)
                 && forall j | 0 <= j < i :: p(s[1..][j]) == Success(false);
        assert forall j | 0 <= j < i + 1 :: p(s[j]) == Success(false);
      } else if r.Failure? {
        var i :| 0 <= i < |s[1..]| && p(s[1..][i]) == Failure(r.error) && forall j | 0 <= j < i :: p(s[1..][j]) == Success(false);
        assert forall j | 0 <= j < i + 1 :: p(s[j]) == Success(false);
      }
    }
  }

  /** SingleOrDefault with a predicate that can throw, in the order .NET runs
      it: up to the first match, then over the rest looking for a second one;
      the predicate's first exception escapes. */
  function SingleOrDefaultTry<T>(s: seq<T>, p: T -> Result<bool, Fault>): Result<Option<T>, Fault> {
    if s == [] then Success(None)
    else
      var here :- p(s[0]);
      if here then
        var other :- FirstOrDefaultTry(s[1..], p);
        if other.Some? then Failure(SequenceNotSingle) else Success(Some(s[0]))
      else SingleOrDefaultTry(s[1..], p)
  }

  /** Single with a predicate that can throw: SingleOrDefaultTry, with no match an exception too. */
  function SingleTry<T>(s: seq<T>, p: T -> Result<bool, Fault>): Result<T, Fault> {
    var r :- SingleOrDefaultTry(s, p);
    if r.None? then Failure(SequenceEmpty) else Success(r.value)
  }

  /** The elements a throwing predicate accepts. */
  function Holds<T>(p: T -> Result<bool, Fault>): T -> bool {
    x => p(x) == Success(true)
  }

  /** A predicate that never throws finds nothing exactly when it accepts nothing. */
  lemma {:induction false} FirstOrDefaultTryTotal<T>(s: seq<T>, p: T -> Result<bool, Fault>)
    requires forall i | 0 <= i < |s| :: p(s[i]).Success?
    ensures FirstOrDefaultTry(s, p).Success?
    ensures FirstOrDefaultTry(s, p) == Success(None) <==> CountWhere(s, Holds(p)) == 0
  {
    if s != [] {
      assert forall i | 0 <= i < |s[1..]| :: s[1..][i] == s[i + 1];
      FirstOrDefaultTryTotal(s[1..], p);
    }
  }

  /** With a predicate that never throws, the throwing SingleOrDefault is the plain one. */
  lemma {:induction false} SingleOrDefaultTryTotal<T>(s: seq<T>, p: T -> Result<bool, Fault>)
    requires forall i | 0 <= i < |s| :: p(s[i]).Success?
    ensures SingleOrDefaultTry(s, p) == SingleOrDefault(s, Holds(p))
  {
    if s != [] {
      assert forall i | 0 <= i < |s[1..]| :: s[1..][i] == s[i + 1];
      assert Where(s, Holds(p)) == (if Holds(p)(s[0]) then [s[0]] else []) + Where(s[1..], Holds(p));
      if p(s[0]) == Success(true) {
        FirstOrDefaultTryTotal(s[1..], p);
      } else {
        SingleOrDefaultTryTotal(s[1..], p);
      }
    }
  }

  /** A throwing SingleOrDefault that returns has run the predicate on
      every element without an exception. */
  lemma {:induction false} SingleOrDefaultTryEvaluatesAll<T>(s: seq<T>, p: T -> Result<bool, Fault>)
    requires SingleOrDefaultTry(s, p).Success?
    ensures forall i | 0 <= i < |s| :: p(s[i]).Success?
  {
    if s != [] {
      assert forall i | 1 <= i < |s| :: s[i] == s[1..][i - 1];
      if p(s[0]) == Success(true) {
        FirstOrDefaultTryCharacterized(s[1..], p);
      } else {
        SingleOrDefaultTryEvaluatesAll(s[1..], p);
      }
    }
  }

  /** A throwing SingleOrDefault that returns finds nothing when no element
      is accepted and the element when exactly one is. */
  lemma SingleOrDefaultTryCounts<T>(s: seq<T>, p: T -> Result<bool, Fault>)
    requires SingleOrDefaultTry(s, p).Success?
    ensures SingleOrDefaultTry(s, p).value.None? <==> CountWhere(s, Holds(p)) == 0
    ensures SingleOrDefaultTry(s, p).value.Some? <==> CountWhere(s, Holds(p)) == 1
  {
    SingleOrDefaultTryEvaluatesAll(s, p);
    SingleOrDefaultTryTotal(s, p);
  }

  /** Decimal digits of n, as `$"{n}"` prints an int. */
  function NatToString(n: nat): string
    decreases n
  {
    if n < 10 then [DigitChar(n)] else NatToString(n / 10) + [DigitChar(n % 10)]
  }

  function DigitChar(d: nat): char
    requires d < 10
  {
    ('0' as int + d) as char
  }

  /** Different numbers print differently. */
  lemma {:induction false} NatToStringInjective(a: nat, b: nat)
    requires NatToString(a) == NatToString(b)
    ensures a == b
    decreases a
  {
    if a < 10 && b < 10 {
      assert DigitChar(a) == NatToString(a)[0] == NatToString(b)[0] == DigitChar(b);
    } else if a < 10 || b < 10 {
      assert false;
    } else {
      var pa, pb := NatToString(a / 10), NatToString(b / 10);
      assert NatToString(a) == pa + [DigitChar(a % 10)] && NatToString(b) == pb + [DigitChar(b % 10)];
      assert DigitChar(a % 10) == NatToString(a)[|pa|] && DigitChar(b % 10) == NatToString(b)[|pb|];
      assert |pa| == |pb|;
      assert pa == NatToString(a)[..|pa|] && pb == NatToString(b)[..|pb|];
      NatToStringInjective(a / 10, b / 10);
    }
  }

  /** string.Join(separator, items) */
  function Join(separator: string, items: seq<string>): string {
    if items == [] then ""
    else if |items| == 1 then items[0]
    else items[0] + separator + Join(separator, items[1..])
  }
}
