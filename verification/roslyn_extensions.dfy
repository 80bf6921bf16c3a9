/** The attribute lookups of RoslynExtensions: a symbol is reduced to its
    GetAttributes() list, given to the generic helpers as `attrsOf`. */
module RoslynExtensions {
  import opened Wrappers
  import opened Symbols

  /** SymbolAttributeInfo<TSymbol>: a symbol paired with the attribute that selected it. */
  datatype SymbolAttributeInfo<S> = SymbolAttributeInfo(symbol: S, attribute: AttrData)

  /** `attr.AttributeClass?.Name == name`, as a function value. */
  function NamedAs(name: string): AttrData -> bool {
    a => AttrNamed(a, name)
  }

  /** The GetGenericAttribute filter: the name, the type-argument count and
      each type argument (up to SymbolEqualityComparer.Default) agree. */
  predicate MatchesGeneric(a: AttrData, name: string, genericTypes: seq<TypeSym>) {
    && a.attrClass.Some? && a.attrClass.value.name == name
    && |a.attrClass.value.generics| == |genericTypes|
    && forall i | 0 <= i < |genericTypes| :: SymEq(a.attrClass.value.generics[i].argument.sym, genericTypes[i])
  }

  function GenericAs(name: string, genericTypes: seq<TypeSym>): AttrData -> bool {
    a => MatchesGeneric(a, name, genericTypes)
  }

  /** GetGenericAttribute: null when no attribute matches, the attribute when
      exactly one does, an exception (SingleOrDefault) when several do. */
  function GetGenericAttribute(attrs: seq<AttrData>, name: string, genericTypes: seq<TypeSym>): (r: Result<Option<AttrData>, Fault>)
    ensures r == Success(None) <==> forall i | 0 <= i < |attrs| :: !MatchesGeneric(attrs[i], name, genericTypes)
    ensures r.Failure? <==> CountWhere(attrs, GenericAs(name, genericTypes)) > 1
    ensures r.Success? && r.value.Some? ==>
              && r.value.value in attrs
              && r.value.value.attrClass.Some? && r.value.value.attrClass.value.name == name
              && |TypeArguments(r.value.value.attrClass.value)| == |genericTypes|
              && forall i | 0 <= i < |genericTypes| :: SymEq(TypeArguments(r.value.value.attrClass.value)[i], genericTypes[i])
  {
    var r := SingleOrDefault(attrs, GenericAs(name, genericTypes));
    CountWhereZero(attrs, GenericAs(name, genericTypes));
    r
  }

  /** The symbols the helpers keep, in input order. */
  function SymbolsOf<S>(infos: seq<SymbolAttributeInfo<S>>): (r: seq<S>)
    ensures |r| == |infos|
    ensures forall i | 0 <= i < |infos| :: r[i] == infos[i].symbol
  {
    if infos == [] then [] else [infos[0].symbol] + SymbolsOf(infos[1..])
  }

  /** A symbol with exactly one attribute named `name`. */
  function HasSingleNamed<S>(attrsOf: S -> seq<AttrData>, name: string): S -> bool {
    s => CountWhere(attrsOf(s), NamedAs(name)) == 1
  }

  /** A symbol with more than one attribute named `name`: SingleOrDefault throws on it. */
  function HasSeveralNamed<S>(attrsOf: S -> seq<AttrData>, name: string): S -> bool {
    s => CountWhere(attrsOf(s), NamedAs(name)) > 1
  }

  /** GetSymbolsWithSingleAttribute: each symbol's attribute named `name` is
      looked up with SingleOrDefault; symbols without one are dropped, and a
      symbol with several makes the enumeration throw. */
  function GetSymbolsWithSingleAttribute<S(==)>(symbols: seq<S>, attrsOf: S -> seq<AttrData>, name: string)
    : (r: Result<seq<SymbolAttributeInfo<S>>, Fault>)
    ensures r.Failure? <==> CountWhere(symbols, HasSeveralNamed(attrsOf, name)) > 0
    ensures r.Success? ==> SymbolsOf(r.value) == Where(symbols, HasSingleNamed(attrsOf, name))
    ensures r.Success? ==> forall i | 0 <= i < |r.value| ::
              r.value[i].attribute in attrsOf(r.value[i].symbol) && AttrNamed(r.value[i].attribute, name)
  {
    if symbols == [] then Success([])
    else
      var attribute :- SingleOrDefault(attrsOf(symbols[0]), NamedAs(name));
      var rest :- GetSymbolsWithSingleAttribute(symbols[1..], attrsOf, name);
      if attribute.None? then Success(rest)
      else Success([SymbolAttributeInfo(symbols[0], attribute.value)] + rest)
  }

  /** A symbol whose GetGenericAttribute finds exactly one attribute. */
  function HasSingleGeneric<S>(attrsOf: S -> seq<AttrData>, name: string, genericTypes: seq<TypeSym>): S -> bool {
    s => CountWhere(attrsOf(s), GenericAs(name, genericTypes)) == 1
  }

  function HasSeveralGeneric<S>(attrsOf: S -> seq<AttrData>, name: string, genericTypes: seq<TypeSym>): S -> bool {
    s => CountWhere(attrsOf(s), GenericAs(name, genericTypes)) > 1
  }

  /** GetSymbolsWithSingleGenericAttribute: the same walk through GetGenericAttribute. */
  function GetSymbolsWithSingleGenericAttribute<S(==)>(symbols: seq<S>, attrsOf: S -> seq<AttrData>,
                                                      name: string, genericTypes: seq<TypeSym>)
    : (r: Result<seq<SymbolAttributeInfo<S>>, Fault>)
    ensures r.Failure? <==> CountWhere(symbols, HasSeveralGeneric(attrsOf, name, genericTypes)) > 0
    ensures r.Success? ==> forall i | 0 <= i < |r.value| ::
              GetGenericAttribute(attrsOf(r.value[i].symbol), name, genericTypes) == Success(Some(r.value[i].attribute))
  {
    if symbols == [] then Success([])
    else
      var attribute :- GetGenericAttribute(attrsOf(symbols[0]), name, genericTypes);
      var rest :- GetSymbolsWithSingleGenericAttribute(symbols[1..], attrsOf, name, genericTypes);
      if attribute.None? then Success(rest)
      else Success([SymbolAttributeInfo(symbols[0], attribute.value)] + rest)
  }

  /** GetSymbolsWithSingleGenericAttribute is the input filtered by
      `GetGenericAttribute(...) != null`, in input order. */
  lemma {:induction false} SingleGenericIsFilter<S>(symbols: seq<S>, attrsOf: S -> seq<AttrData>,
                                                        name: string, genericTypes: seq<TypeSym>)
    ensures var r := GetSymbolsWithSingleGenericAttribute(symbols, attrsOf, name, genericTypes);
            r.Success? ==> SymbolsOf(r.value) == Where(symbols, HasSingleGeneric(attrsOf, name, genericTypes))
  {
    if symbols != [] {
      SingleGenericIsFilter(symbols[1..], attrsOf, name, genericTypes);
    }
  }
}
