/** InheritanceUtils: the polymorphism map (each base class or directly
    declared interface of a mapped type, to the mapped types that derive from
    or implement it) and the IConvertible classification of a type.

    The map's dictionary compares keys with SymbolEqualityComparer.Default,
    so a key is the erased type (`Erase`). */
module InheritanceUtils {
  import opened Wrappers
  import opened Symbols

  type PolymorphismMap = map<TypeSym, seq<TypeSym>>

  /** The keys `t` is filed under, in the order the loop visits them: its base
      type unless absent or System.Object, then each directly declared interface. */
  function Supertypes(t: TypeSym): (r: seq<TypeSym>)
    ensures |r| == (if t.baseType.Some? && t.baseType.value.special != SystemObject then 1 else 0) + |t.interfaces|
  {
    (if t.baseType.Some? && t.baseType.value.special != SystemObject then [Erase(t.baseType.value)] else [])
    + seq(|t.interfaces|, i requires 0 <= i < |t.interfaces| => Erase(t.interfaces[i]))
  }

  /** `TryGetValue(key, out list) ? list.Add(type) : Add(key, [type])` */
  function FileUnder(m: PolymorphismMap, key: TypeSym, t: TypeSym): PolymorphismMap {
    if key in m then m[key := m[key] + [t]] else m[key := [t]]
  }

  /** Files `t` under each of `keys`, in order. */
  function FileUnderAll(m: PolymorphismMap, keys: seq<TypeSym>, t: TypeSym): PolymorphismMap
    decreases |keys|
  {
    if keys == [] then m else FileUnderAll(FileUnder(m, keys[0], t), keys[1..], t)
  }

  /** The map CreatePolymorphismMap builds from `types`, one type at a time. */
  function BuildPolymorphismMap(types: seq<TypeSym>): PolymorphismMap
    decreases |types|
  {
    if types == [] then map[]
    else
      var last := types[|types| - 1];
      FileUnderAll(BuildPolymorphismMap(types[..|types| - 1]), Supertypes(last), last)
  }

  // ---------------------------------------------------------------------
  // An independent, key-by-key description of the same map

  function Occurrences(s: seq<TypeSym>, k: TypeSym): nat {
    if s == [] then 0 else (if s[0] == k then 1 else 0) + Occurrences(s[1..], k)
  }

  function Repeat(t: TypeSym, n: nat): (r: seq<TypeSym>)
    ensures |r| == n && forall i | 0 <= i < n :: r[i] == t
  {
    if n == 0 then [] else [t] + Repeat(t, n - 1)
  }

  /** The input types filed under `k`: in input order, each as many times as it names `k`. */
  function SubtypesOf(types: seq<TypeSym>, k: TypeSym): seq<TypeSym>
    decreases |types|
  {
    if types == [] then [] else Repeat(types[0], Occurrences(Supertypes(types[0]), k)) + SubtypesOf(types[1..], k)
  }

  /** The list under `k`, or the empty list for a missing key. */
  function Lookup(m: PolymorphismMap, k: TypeSym): seq<TypeSym> {
    if k in m then m[k] else []
  }

  predicate NoEmptyList(m: PolymorphismMap) {
    forall k | k in m :: m[k] != []
  }

  lemma {:induction false} OccurrencesAppend(a: seq<TypeSym>, b: seq<TypeSym>, k: TypeSym)
    ensures Occurrences(a + b, k) == Occurrences(a, k) + Occurrences(b, k)
    decreases |a|
  {
    if a == [] {
      assert a + b == b;
    } else {
      assert (a + b)[1..] == a[1..] + b;
      OccurrencesAppend(a[1..], b, k);
    }
  }

  lemma {:induction false} OccurrencesPositive(s: seq<TypeSym>, k: TypeSym)
    ensures Occurrences(s, k) > 0 <==> k in s
    decreases |s|
  {
    if s != [] {
      OccurrencesPositive(s[1..], k);
      assert k in s <==> s[0] == k || k in s[1..];
    }
  }

  lemma {:induction false} RepeatAppend(t: TypeSym, a: nat, b: nat)
    ensures Repeat(t, a) + Repeat(t, b) == Repeat(t, a + b)
  {
  }

  lemma {:induction false} SubtypesOfSnoc(types: seq<TypeSym>, t: TypeSym, k: TypeSym)
    ensures SubtypesOf(types + [t], k) == SubtypesOf(types, k) + Repeat(t, Occurrences(Supertypes(t), k))
    decreases |types|
  {
    if types == [] {
      assert SubtypesOf([t], k) == Repeat(t, Occurrences(Supertypes(t), k)) + SubtypesOf([], k);
    } else {
      assert (types + [t])[1..] == types[1..] + [t];
      SubtypesOfSnoc(types[1..], t, k);
    }
  }

  /** Filing `t` under `keys` adds `t` to the list of each key once per time the key is named. */
  lemma {:induction false} FileUnderAllLookup(m: PolymorphismMap, keys: seq<TypeSym>, t: TypeSym, k: TypeSym)
    requires NoEmptyList(m)
    ensures NoEmptyList(FileUnderAll(m, keys, t))
    ensures Lookup(FileUnderAll(m, keys, t), k) == Lookup(m, k) + Repeat(t, Occurrences(keys, k))
    decreases |keys|
  {
    if keys != [] {
      var m' := FileUnder(m, keys[0], t);
      assert NoEmptyList(m');
      FileUnderAllLookup(m', keys[1..], t, k);
      assert keys == [keys[0]] + keys[1..];
      OccurrencesAppend([keys[0]], keys[1..], k);
      RepeatAppend(t, Occurrences([keys[0]], k), Occurrences(keys[1..], k));
    }
  }

  /** The built map agrees, key by key, with the independent description; no key maps to an empty list. */
  lemma {:induction false} BuildPolymorphismMapLookup(types: seq<TypeSym>, k: TypeSym)
    ensures NoEmptyList(BuildPolymorphismMap(types))
    ensures Lookup(BuildPolymorphismMap(types), k) == SubtypesOf(types, k)
    decreases |types|
  {
    if types != [] {
      var init, last := types[..|types| - 1], types[|types| - 1];
      BuildPolymorphismMapLookup(init, k);
      FileUnderAllLookup(BuildPolymorphismMap(init), Supertypes(last), last, k);
      assert types == init + [last];
      SubtypesOfSnoc(init, last, k);
    }
  }

  /** The keys are exactly the supertypes some input type is filed under, each
      with the types filed under it, in input order and with repeats kept. */
  lemma PolymorphismMapCharacterized(types: seq<TypeSym>, k: TypeSym)
    ensures k in BuildPolymorphismMap(types) <==> SubtypesOf(types, k) != []
    ensures k in BuildPolymorphismMap(types) ==> BuildPolymorphismMap(types)[k] == SubtypesOf(types, k)
  {
    BuildPolymorphismMapLookup(types, k);
  }

  lemma {:induction false} SubtypesOfContains(types: seq<TypeSym>, i: nat, k: TypeSym)
    requires i < |types| && k in Supertypes(types[i])
    ensures types[i] in SubtypesOf(types, k)
    decreases |types|
  {
    OccurrencesPositive(Supertypes(types[0]), k);
    if i > 0 {
      SubtypesOfContains(types[1..], i - 1, k);
    } else {
      assert Repeat(types[0], Occurrences(Supertypes(types[0]), k))[0] == types[0];
    }
  }

  lemma {:induction false} SubtypesOfNamed(types: seq<TypeSym>, k: TypeSym)
    requires SubtypesOf(types, k) != []
    ensures exists i | 0 <= i < |types| :: k in Supertypes(types[i])
    decreases |types|
  {
    OccurrencesPositive(Supertypes(types[0]), k);
    if k !in Supertypes(types[0]) {
      SubtypesOfNamed(types[1..], k);
      var i :| 0 <= i < |types[1..]| && k in Supertypes(types[1..][i]);
      assert types[i + 1] == types[1..][i];
    }
  }

  /** Every input type with a base other than System.Object is listed under that base. */
  lemma ListedUnderBase(types: seq<TypeSym>, i: nat)
    requires i < |types|
    requires types[i].baseType.Some? && types[i].baseType.value.special != SystemObject
    ensures var m, k := BuildPolymorphismMap(types), Erase(types[i].baseType.value);
      k in m && types[i] in m[k]
  {
    var k := Erase(types[i].baseType.value);
    assert Supertypes(types[i])[0] == k;
    SubtypesOfContains(types, i, k);
    PolymorphismMapCharacterized(types, k);
  }

  /** Every input type is listed under each interface it declares directly. */
  lemma ListedUnderInterface(types: seq<TypeSym>, i: nat, j: nat)
    requires i < |types| && j < |types[i].interfaces|
    ensures var m, k := BuildPolymorphismMap(types), Erase(types[i].interfaces[j]);
      k in m && types[i] in m[k]
  {
    var t := types[i];
    var k := Erase(t.interfaces[j]);
    var offset := if t.baseType.Some? && t.baseType.value.special != SystemObject then 1 else 0;
    assert Supertypes(t)[offset + j] == k;
    SubtypesOfContains(types, i, k);
    PolymorphismMapCharacterized(types, k);
  }

  /** Every key is a base or a direct interface of some input type. */
  lemma KeysAreSupertypes(types: seq<TypeSym>, k: TypeSym)
    requires k in BuildPolymorphismMap(types)
    ensures exists i | 0 <= i < |types| :: k in Supertypes(types[i])
  {
    PolymorphismMapCharacterized(types, k);
    SubtypesOfNamed(types, k);
  }

  /** CreatePolymorphismMap: the loop over the types, each filed under its base and then its interfaces. */
  method CreatePolymorphismMap(types: seq<TypeSym>) returns (result: PolymorphismMap)
    ensures result == BuildPolymorphismMap(types)
  {
    result := map[];
    for n := 0 to |types|
      invariant result == BuildPolymorphismMap(types[..n])
    {
      var t := types[n];
      ghost var target := FileUnderAll(result, Supertypes(t), t);
      assert types[..n + 1][..n] == types[..n];
      if t.baseType.Some? && t.baseType.value.special != SystemObject {
        result := FileUnder(result, Erase(t.baseType.value), t);
      }
      var ifaces := t.interfaces;
      ghost var keys := Supertypes(t)[|Supertypes(t)| - |ifaces|..];
      assert target == FileUnderAll(result, keys, t);
      for j := 0 to |ifaces|
        invariant target == FileUnderAll(result, keys[j..], t)
      {
        assert keys[j..][1..] == keys[j + 1..];
        result := FileUnder(result, Erase(ifaces[j]), t);
      }
    }
    assert types[..|types|] == types;
  }

  // ---------------------------------------------------------------------
  // TryGetConvertibleInfo

  /** The three results of TryGetConvertibleInfo: its return value and its two out parameters. */
  datatype ConvertibleInfo = ConvertibleInfo(convertible: bool, canBeNull: bool, underlying: Option<TypeUse>)

  /** Whether a type converts through IConvertible, whether its values can be
      null, and the type under a Nullable<T>. */
  function TryGetConvertibleInfo(t: TypeUse, c: Compilation): (r: Result<ConvertibleInfo, Fault>)
    ensures c.iConvertible.None? ==> r == Success(ConvertibleInfo(false, false, None))
    ensures c.iConvertible.Some? && IsNullableT(t.sym) ==>
      && (r.Success? <==> |t.sym.generics| > 0)
      && (r.Success? ==> var u := t.sym.generics[0].argument;
            r.value == ConvertibleInfo(Implements(u.sym, c.iConvertible.value), true, Some(u)))
    ensures c.iConvertible.Some? && !IsNullableT(t.sym) ==>
      && r.Success? && r.value.underlying.None?
      && (r.value.canBeNull <==> t.sym.isReferenceType && t.annotation == Annotated)
      && (r.value.convertible <==> Implements(t.sym, c.iConvertible.value))
  {
    if c.iConvertible.None? then Success(ConvertibleInfo(false, false, None))
    else
      var iConvertible := c.iConvertible.value;
      if IsNullableT(t.sym) then
        if |t.sym.generics| == 0 then Failure(IndexOutOfRange)
        else
          var u := t.sym.generics[0].argument;
          Success(ConvertibleInfo(Implements(u.sym, iConvertible), true, Some(u)))
      else if t.sym.isReferenceType then
        Success(ConvertibleInfo(Implements(t.sym, iConvertible), t.annotation == Annotated, None))
      else
        Success(ConvertibleInfo(Implements(t.sym, iConvertible), false, None))
  }
}
