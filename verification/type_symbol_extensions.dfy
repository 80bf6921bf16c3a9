/** The ITypeSymbol extensions: the base-chain property walks, the simple-type
    classification and the blank-constructor selection used when a nested
    destination has to be registered before it is populated. */
module TypeSymbolExtensions {
  import opened Wrappers
  import opened Symbols

  // ---------------------------------------------------------------------
  // Property walks

  /** The walk `for (current = type; current is not null; current = current.BaseType)`
      started from `start`: the types it visits, most derived first. */
  function BaseChainFrom(start: Option<TypeSym>): (r: seq<TypeSym>)
    ensures start.None? <==> r == []
    ensures start.Some? ==> r[0] == start.value
    decreases start
  {
    if start.None? then [] else [start.value] + BaseChainFrom(start.value.baseType)
  }

  /** The type, its base, its base's base, ... up to the type without a base. */
  function BaseChain(t: TypeSym): (r: seq<TypeSym>)
    ensures |r| >= 1 && r[0] == t
  {
    BaseChainFrom(Some(t))
  }

  /** `GetMembers().OfType<IPropertySymbol>()` of each type of the chain, in chain order. */
  function ChainProperties(chain: seq<TypeSym>): seq<PropSym> {
    if chain == [] then [] else chain[0].properties + ChainProperties(chain[1..])
  }

  /** The properties `keep` accepts, each only the first time it is met, and
      none already in `seen`: the `seen.Add` filter of the walks. */
  function Dedup(ps: seq<PropSym>, keep: PropSym -> bool, seen: set<PropSym>): seq<PropSym> {
    if ps == [] then []
    else if !keep(ps[0]) || ps[0] in seen then Dedup(ps[1..], keep, seen)
    else [ps[0]] + Dedup(ps[1..], keep, seen + {ps[0]})
  }

  /** `property.GetMethod is not null` */
  predicate Readable(p: PropSym) { p.hasGetter }

  /** `property.SetMethod is not null` */
  predicate Settable(p: PropSym) { p.hasSetter }

  /** What GetAllReadableProperties yields. */
  function ReadableProperties(t: TypeSym): seq<PropSym> {
    Dedup(ChainProperties(BaseChain(t)), Readable, {})
  }

  /** What GetAllSetableProperties yields. */
  function SettableProperties(t: TypeSym): seq<PropSym> {
    Dedup(ChainProperties(BaseChain(t)), Settable, {})
  }

  /** The walk shared by both extensions: every property of every type of the
      base chain, in order, yielded when `keep` accepts it and it was not
      seen before. */
  method WalkProperties(t: TypeSym, keep: PropSym -> bool) returns (result: seq<PropSym>)
    ensures result == Dedup(ChainProperties(BaseChain(t)), keep, {})
  {
    var seen: set<PropSym> := {};
    result := [];
    var current := Some(t);
    while current.Some?
      invariant Dedup(ChainProperties(BaseChain(t)), keep, {})
                == result + Dedup(ChainProperties(BaseChainFrom(current)), keep, seen)
      decreases current
    {
      var props := current.value.properties;
      ghost var rest := ChainProperties(BaseChainFrom(current.value.baseType));
      assert ChainProperties(BaseChainFrom(current)) == props + rest by {
        assert BaseChainFrom(current)[1..] == BaseChainFrom(current.value.baseType);
      }
      for j := 0 to |props|
        invariant Dedup(ChainProperties(BaseChain(t)), keep, {})
                  == result + Dedup(props[j..] + rest, keep, seen)
      {
        var property := props[j];
        Symbols.DropConcatStep(props, rest, j);
        if !keep(property) {
          continue;
        }
        if property in seen {
          continue;
        }
        Symbols.ConsAssoc(result, property, Dedup(props[j + 1..] + rest, keep, seen + {property}));
        seen := seen + {property};
        result := result + [property];
      }
      Symbols.DropAllConcat(props, rest);
      current := current.value.baseType;
    }
  }

  /** GetAllReadableProperties (ITypeSymbolExtensions.cs). */
  method GetAllReadableProperties(t: TypeSym) returns (result: seq<PropSym>)
    ensures result == ReadableProperties(t)
  {
    result := WalkProperties(t, Readable);
  }

  /** GetAllSetableProperties (ITypeSymbolExtensions.cs). */
  method GetAllSetableProperties(t: TypeSym) returns (result: seq<PropSym>)
    ensures result == SettableProperties(t)
  {
    result := WalkProperties(t, Settable);
  }

  /** A property is in the chain's properties exactly when some type of the chain declares it. */
  lemma {:induction false} ChainPropertiesMembership(chain: seq<TypeSym>, p: PropSym)
    ensures p in ChainProperties(chain) <==> exists k | 0 <= k < |chain| :: p in chain[k].properties
  {
    if chain != [] {
      ChainPropertiesMembership(chain[1..], p);
      if p in chain[0].properties {
      } else if p in ChainProperties(chain[1..]) {
        var k :| 0 <= k < |chain[1..]| && p in chain[1..][k].properties;
        assert p in chain[k + 1].properties;
      } else {
        forall k | 0 <= k < |chain| ensures p !in chain[k].properties {
          if k > 0 {
            assert chain[k] == chain[1..][k - 1];
          }
        }
      }
    }
  }

  /** The filter yields exactly the accepted properties of the input that were not already seen. */
  lemma {:induction false} DedupMembership(ps: seq<PropSym>, keep: PropSym -> bool, seen: set<PropSym>, p: PropSym)
    ensures p in Dedup(ps, keep, seen) <==> p in ps && keep(p) && p !in seen
  {
    if ps != [] {
      if !keep(ps[0]) || ps[0] in seen {
        DedupMembership(ps[1..], keep, seen, p);
        assert p in ps <==> p == ps[0] || p in ps[1..];
      } else {
        DedupMembership(ps[1..], keep, seen + {ps[0]}, p);
        assert p in ps <==> p == ps[0] || p in ps[1..];
      }
    }
  }

  /** No property occurs twice. */
  predicate NoDuplicates(r: seq<PropSym>) {
    forall i, j | 0 <= i < j < |r| :: r[i] != r[j]
  }

  /** The filter never yields a property twice. */
  lemma {:induction false} DedupDistinct(ps: seq<PropSym>, keep: PropSym -> bool, seen: set<PropSym>)
    ensures NoDuplicates(Dedup(ps, keep, seen))
  {
    if ps != [] {
      if !keep(ps[0]) || ps[0] in seen {
        DedupDistinct(ps[1..], keep, seen);
      } else {
        var tail := Dedup(ps[1..], keep, seen + {ps[0]});
        DedupDistinct(ps[1..], keep, seen + {ps[0]});
        DedupMembership(ps[1..], keep, seen + {ps[0]}, ps[0]);
        var r := [ps[0]] + tail;
        forall i, j | 0 <= i < j < |r| ensures r[i] != r[j] {
          if i == 0 {
            assert r[j] == tail[j - 1];
          } else {
            assert r[i] == tail[i - 1] && r[j] == tail[j - 1];
          }
        }
      }
    }
  }

  /** `sub` keeps some of the elements of `s`, in their order in `s`. */
  predicate IsSubsequence(sub: seq<PropSym>, s: seq<PropSym>)
    decreases |s|
  {
    if sub == [] then true
    else if s == [] then false
    else if sub[0] == s[0] then IsSubsequence(sub[1..], s[1..])
    else IsSubsequence(sub, s[1..])
  }

  /** The filter keeps the walk's order. */
  lemma {:induction false} DedupKeepsOrder(ps: seq<PropSym>, keep: PropSym -> bool, seen: set<PropSym>)
    ensures IsSubsequence(Dedup(ps, keep, seen), ps)
  {
    if ps != [] {
      if !keep(ps[0]) || ps[0] in seen {
        DedupKeepsOrder(ps[1..], keep, seen);
        SubsequenceOfTail(Dedup(ps[1..], keep, seen), ps);
      } else {
        DedupKeepsOrder(ps[1..], keep, seen + {ps[0]});
        var r := [ps[0]] + Dedup(ps[1..], keep, seen + {ps[0]});
        assert r[1..] == Dedup(ps[1..], keep, seen + {ps[0]});
      }
    }
  }

  lemma {:induction false} SubsequenceOfTail(sub: seq<PropSym>, s: seq<PropSym>)
    requires s != [] && IsSubsequence(sub, s[1..])
    ensures IsSubsequence(sub, s)
    decreases |s|, 0
  {
    if sub != [] && sub[0] == s[0] {
      SubsequenceDropHead(sub, s[1..]);
    }
  }

  lemma {:induction false} SubsequenceDropHead(sub: seq<PropSym>, s: seq<PropSym>)
    requires sub != [] && IsSubsequence(sub, s)
    ensures IsSubsequence(sub[1..], s)
    decreases |s|, 1
  {
    if sub[0] == s[0] {
      SubsequenceOfTail(sub[1..], s);
    } else {
      SubsequenceDropHead(sub, s[1..]);
      SubsequenceOfTail(sub[1..], s);
    }
  }

  /** GetAllReadableProperties yields each property with a getter declared on
      the type or one of its bases, exactly once, in walk order. */
  lemma ReadablePropertiesCharacterized(t: TypeSym)
    ensures var r := ReadableProperties(t);
            && (forall p :: p in r <==> p.hasGetter && exists k | 0 <= k < |BaseChain(t)| :: p in BaseChain(t)[k].properties)
            && NoDuplicates(r)
            && IsSubsequence(r, ChainProperties(BaseChain(t)))
  {
    var ps := ChainProperties(BaseChain(t));
    forall p ensures p in ReadableProperties(t) <==> p.hasGetter && exists k | 0 <= k < |BaseChain(t)| :: p in BaseChain(t)[k].properties {
      DedupMembership(ps, Readable, {}, p);
      ChainPropertiesMembership(BaseChain(t), p);
    }
    DedupDistinct(ps, Readable, {});
    DedupKeepsOrder(ps, Readable, {});
  }

  /** GetAllSetableProperties yields each property with a setter declared on
      the type or one of its bases, exactly once, in walk order. */
  lemma SettablePropertiesCharacterized(t: TypeSym)
    ensures var r := SettableProperties(t);
            && (forall p :: p in r <==> p.hasSetter && exists k | 0 <= k < |BaseChain(t)| :: p in BaseChain(t)[k].properties)
            && NoDuplicates(r)
            && IsSubsequence(r, ChainProperties(BaseChain(t)))
  {
    var ps := ChainProperties(BaseChain(t));
    forall p ensures p in SettableProperties(t) <==> p.hasSetter && exists k | 0 <= k < |BaseChain(t)| :: p in BaseChain(t)[k].properties {
      DedupMembership(ps, Settable, {}, p);
      ChainPropertiesMembership(BaseChain(t), p);
    }
    DedupDistinct(ps, Settable, {});
    DedupKeepsOrder(ps, Settable, {});
  }

  // ---------------------------------------------------------------------
  // IsSimpleType

  /** The special types IsSimpleType accepts. */
  const SimpleSpecials: set<SpecialType> := {
    SystemBoolean, SystemByte, SystemSByte, SystemInt16, SystemUInt16,
    SystemInt32, SystemUInt32, SystemInt64, SystemUInt64,
    SystemSingle, SystemDouble, SystemDecimal, SystemChar, SystemString, SystemDateTime }

  /** The named types of namespace System IsSimpleType accepts besides the special ones. */
  const SystemValueNames: set<string> := { "Guid", "DateOnly", "TimeOnly", "DateTimeOffset", "TimeSpan" }

  /** The classification once Nullable<T> has been unwrapped. */
  predicate SimpleUnwrapped(u: TypeSym) {
    || u.kind == EnumKind
    || u.special in SimpleSpecials
    || (IsNamed(u) && u.ns == "System" && u.name in SystemValueNames)
  }

  /** IsSimpleType: Nullable<T> is replaced by T (TypeArguments[0], which throws
      when there is none); the type is then simple when it is an enum, one of
      the listed special types or one of the listed System value types. */
  function IsSimpleType(t: TypeSym): (r: Result<bool, Fault>)
    ensures r.Failure? <==> IsNullableT(t) && |t.generics| == 0
    ensures r.Success? && !IsNullableT(t) ==> (r.value <==> SimpleUnwrapped(t))
    ensures r.Success? && IsNullableT(t) ==> (r.value <==> SimpleUnwrapped(t.generics[0].argument.sym))
  {
    var u :- if IsNullableT(t) then
               (if |t.generics| > 0 then Success(t.generics[0].argument.sym) else Failure(IndexOutOfRange))
             else Success(t);
    if u.kind == EnumKind then Success(true)
    else if u.special in SimpleSpecials then Success(true)
    else if IsNamed(u) && u.ns == "System" && u.name in SystemValueNames then Success(true)
    else Success(false)
  }

  /** Only one layer is unwrapped: `T?` is simple exactly when T is, for a T that is not itself Nullable. */
  lemma NullableSimpleIffUnderlying(t: TypeSym)
    requires IsNullableT(t) && |t.generics| > 0 && !IsNullableT(t.generics[0].argument.sym)
    ensures IsSimpleType(t) == IsSimpleType(t.generics[0].argument.sym)
  {
  }

  // ---------------------------------------------------------------------
  // TryGetBlankTypeConstructor

  /** `p.SetMethod is not null && p.IsRequired` */
  predicate RequiredSettable(p: PropSym) { p.hasSetter && p.isRequired }

  /** `$"{x.Name} = {(x.Type.IsReferenceType ? "null!" : "default")},"` */
  function Initializer(p: PropSym): string {
    p.name + " = " + (if p.propType.sym.isReferenceType then "null!" else "default") + ","
  }

  function InitializersOf(ps: seq<PropSym>): (r: seq<string>)
    ensures forall p | p in ps && RequiredSettable(p) :: Initializer(p) in r
    ensures forall s | s in r :: exists p | p in ps && RequiredSettable(p) :: s == Initializer(p)
  {
    if ps == [] then []
    else (if RequiredSettable(ps[0]) then [Initializer(ps[0])] else []) + InitializersOf(ps[1..])
  }

  /** One initializer per required settable property the type itself declares
      (bases are not consulted), in declaration order: `null!` for a
      reference type, `default` otherwise. */
  function Initializers(t: TypeSym): (r: seq<string>)
    ensures forall p | p in t.properties && RequiredSettable(p) :: Initializer(p) in r
    ensures forall s | s in r :: exists p | p in t.properties && RequiredSettable(p) :: s == Initializer(p)
  {
    InitializersOf(t.properties)
  }

  /** The `(type, argName)` pairs a factory call needs. */
  datatype CtorArgument = CtorArgument(typeName: string, argName: string)

  /** The three results of TryGetBlankTypeConstructor. */
  datatype BlankCtor = BlankCtor(found: bool, ctorCode: string, arguments: seq<CtorArgument>)

  const ContextArgument := CtorArgument("global::AotObjectMapper.Abstractions.Models.MapperContext", "ctx")

  /** `namedType.Constructors.Any(x => x.DeclaredAccessibility is Public && x.Parameters.Length is 0)` */
  predicate HasPublicParameterless(t: TypeSym) {
    exists c | c in t.constructors :: c.isPublic && c.parameterCount == 0
  }

  /** TryGetBlankTypeConstructor, with `info?.FactoryMethod` passed as `factory`:
      a factory method wins; otherwise a public parameterless constructor with
      the required members initialized; otherwise nothing. */
  function TryGetBlankTypeConstructor(t: TypeSym, factory: Option<MethodSym>): (r: BlankCtor)
    ensures !IsNamed(t) ==> r == BlankCtor(false, "", [])
    ensures IsNamed(t) ==> (r.found <==> factory.Some? || HasPublicParameterless(t))
    ensures IsNamed(t) && factory.Some? ==>
              && r.arguments == (if |factory.value.parameters| == 1 then [ContextArgument] else [])
              && r.ctorCode == factory.value.name + (if |factory.value.parameters| == 1 then "(ctx)" else "()")
    ensures IsNamed(t) && factory.None? ==> r.arguments == []
    ensures IsNamed(t) && factory.None? && HasPublicParameterless(t) ==>
              r.ctorCode == "new global::" + t.display + "() { " + Join(" ", Initializers(t)) + " }"
    ensures !r.found ==> r.ctorCode == "" && r.arguments == []
  {
    if !IsNamed(t) then BlankCtor(false, "", [])
    else if factory.Some? then
      if |factory.value.parameters| == 1 then BlankCtor(true, factory.value.name + "(ctx)", [ContextArgument])
      else BlankCtor(true, factory.value.name + "()", [])
    else if HasPublicParameterless(t) then
      BlankCtor(true, "new global::" + t.display + "() { " + Join(" ", Initializers(t)) + " }", [])
    else BlankCtor(false, "", [])
  }
}
