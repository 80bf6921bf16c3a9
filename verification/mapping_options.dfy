/** The [Flags] enum MappingOptions and the way both resolvers decode it
    (`(mappingOptions & 1U) > 0`, ... `(mappingOptions & 16U) > 0`). */
module MappingOptions {
  import opened Wrappers
  import opened Symbols

  const None: bv32 := 0
  const AllowIConvertable: bv32 := 1
  const SuppressNullWarnings: bv32 := 1 << 1
  const PreserveReferences: bv32 := 1 << 2
  const MapEnumsByValue: bv32 := 1 << 3
  const ThrowExceptionOnUnmappedEnum: bv32 := 1 << 4

  /** The five booleans a resolver keeps after decoding. */
  datatype Flags = Flags(
    allowIConvertable: bool,
    suppressNullWarnings: bool,
    preserveReferences: bool,
    mapEnumsByValue: bool,
    throwExceptionOnUnmappedEnum: bool)

  function Decode(options: bv32): Flags {
    Flags(options & 1 != 0, options & 2 != 0, options & 4 != 0, options & 8 != 0, options & 16 != 0)
  }

  /** The options value that sets exactly the given flags. */
  function Encode(f: Flags): bv32 {
    (if f.allowIConvertable then AllowIConvertable else None)
    | (if f.suppressNullWarnings then SuppressNullWarnings else None)
    | (if f.preserveReferences then PreserveReferences else None)
    | (if f.mapEnumsByValue then MapEnumsByValue else None)
    | (if f.throwExceptionOnUnmappedEnum then ThrowExceptionOnUnmappedEnum else None)
  }

  const AllOptions: seq<bv32> :=
    [AllowIConvertable, SuppressNullWarnings, PreserveReferences, MapEnumsByValue, ThrowExceptionOnUnmappedEnum]

  /** The five options are the masks 1U, 2U, 4U, 8U, 16U that decode them, and no two share a bit. */
  lemma DistinctSingleBits()
    ensures AllOptions == [1, 2, 4, 8, 16]
    ensures forall i, j | 0 <= i < |AllOptions| && 0 <= j < |AllOptions| && i != j :: AllOptions[i] & AllOptions[j] == 0
  {
  }

  /** None decodes to no option at all. */
  lemma NoneDecodesToNothing()
    ensures Decode(None) == Flags(false, false, false, false, false)
  {
  }

  /** Any combination of options decodes back to exactly the options that were set. */
  lemma DecodeEncode(f: Flags)
    ensures Decode(Encode(f)) == f
  {
  }

  /** Decoding keeps only the five known bits: re-encoding a decoded value gives its low five bits. */
  lemma EncodeDecode(options: bv32)
    ensures Encode(Decode(options)) == options & 31
  {
  }

  /** Setting one option bit never turns on, or off, any other option. */
  lemma DecodeIndependent(options: bv32, bit: bv32)
    requires bit in AllOptions
    ensures var before, after := Decode(options), Decode(options | bit);
      && (bit != AllowIConvertable ==> after.allowIConvertable == before.allowIConvertable)
      && (bit != SuppressNullWarnings ==> after.suppressNullWarnings == before.suppressNullWarnings)
      && (bit != PreserveReferences ==> after.preserveReferences == before.preserveReferences)
      && (bit != MapEnumsByValue ==> after.mapEnumsByValue == before.mapEnumsByValue)
      && (bit != ThrowExceptionOnUnmappedEnum ==> after.throwExceptionOnUnmappedEnum == before.throwExceptionOnUnmappedEnum)
  {
    assert bit == 1 || bit == 2 || bit == 4 || bit == 8 || bit == 16;
  }

  /** `Convert.ToInt32(ConstructorArguments[0].Value)` on the boxed uint option value, then the
      five masks: a value above int.MaxValue makes Convert.ToInt32 throw OverflowException. */
  function FromAttributeValue(value: int): (r: Result<Flags, Fault>)
    requires 0 <= value < 0x1_0000_0000
    ensures r.Failure? <==> value > 0x7FFF_FFFF
    ensures r.Failure? ==> r.error == Overflow
    ensures r.Success? ==> Encode(r.value) == (value as bv32) & 31
  {
    if value > 0x7FFF_FFFF then Failure(Overflow)
    else
      EncodeDecode(value as bv32);
      Success(Decode(value as bv32))
  }
}
