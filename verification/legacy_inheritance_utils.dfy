/** The older InheritanceUtils, in the generator's root namespace: the same
    CreatePolymorphismMap loop as the newer copy, and no TryGetConvertibleInfo. */
module LegacyInheritanceUtils {
  import opened Symbols
  import InheritanceUtils

  /** CreatePolymorphismMap (older copy): it builds the same map as the newer copy. */
  method CreatePolymorphismMap(types: seq<TypeSym>) returns (result: InheritanceUtils.PolymorphismMap)
    ensures result == InheritanceUtils.BuildPolymorphismMap(types)
  {
    result := map[];
    for n := 0 to |types|
      invariant result == InheritanceUtils.BuildPolymorphismMap(types[..n])
    {
      var t := types[n];
      ghost var target := InheritanceUtils.FileUnderAll(result, InheritanceUtils.Supertypes(t), t);
      assert types[..n + 1][..n] == types[..n];
      if t.baseType.Some? && t.baseType.value.special != SystemObject {
        result := InheritanceUtils.FileUnder(result, Erase(t.baseType.value), t);
      }
      var ifaces := t.interfaces;
      ghost var keys := InheritanceUtils.Supertypes(t)[|InheritanceUtils.Supertypes(t)| - |ifaces|..];
      assert target == InheritanceUtils.FileUnderAll(result, keys, t);
      for j := 0 to |ifaces|
        invariant target == InheritanceUtils.FileUnderAll(result, keys[j..], t)
      {
        assert keys[j..][1..] == keys[j + 1..];
        result := InheritanceUtils.FileUnder(result, Erase(ifaces[j]), t);
      }
    }
    assert types[..|types|] == types;
  }
}
