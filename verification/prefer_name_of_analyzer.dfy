/** The PreferNameOf analyzer (AOM202).  It looks at one argument passed to a
    parameter marked `[PreferNameOf("T")]`: when the argument is a string
    literal naming an accessible member of the type that `T` stands for, it
    suggests `nameof(...)` instead.  `T` is the name of a type parameter,
    looked up first among the type parameters of the method that declares the
    parameter and then outward through the containing types, innermost first;
    the first declaration with that name wins and its type argument is the
    target type. */
module PreferNameOfAnalyzer {
  import opened Wrappers
  import opened Symbols

  const AttributeName := "PreferNameOfAttribute"

  /** IParameterSymbol.ContainingSymbol, as far as the analyzer looks at it. */
  datatype ContainingSymbol =
    | InMethod(methodSymbol: MethodSym)      // IMethodSymbol
    | InNamedType(typeSymbol: TypeSym)       // INamedTypeSymbol
    | OtherSymbol                            // a property, an event, ...

  datatype Parameter = Parameter(attributes: seq<AttrData>, containingSymbol: ContainingSymbol)

  /** IArgumentOperation.Value: a literal with its ConstantValue (None when
      HasValue is false), or any other operation (an identifier, `nameof`, ...). */
  datatype ArgumentValue = Literal(constantValue: Option<TypedConst>) | NonLiteral

  /** IArgumentOperation: the parameter the argument binds to (null for an
      __arglist argument, for instance) and its value. */
  datatype ArgumentOperation = ArgumentOperation(parameter: Option<Parameter>, value: ArgumentValue)

  /** An AOM202 report: the minimally qualified target type and the member
      name, both as the `Type` and `MemberName` properties and as the two
      message arguments. */
  datatype Report = AOM202(typeName: string, memberName: string)

  // ---------------------------------------------------------------------
  // The specification of target-type resolution

  /** Some type parameter in `gs` is called `name`. */
  predicate Declares(gs: seq<Generic>, name: string) {
    exists i | 0 <= i < |gs| :: gs[i].paramName == name
  }

  /** The type argument paired with the first type parameter called `name`. */
  function ParamArgument(gs: seq<Generic>, name: string): (r: Option<TypeSym>)
    ensures r.None? <==> !Declares(gs, name)
    ensures r.Some? ==> exists i | 0 <= i < |gs| :: gs[i].paramName == name && r.value == gs[i].argument.sym
                                                    && forall k | 0 <= k < i :: gs[k].paramName != name
  {
    var g := FirstOrDefault(gs, (g: Generic) => g.paramName == name);
    if g.Some? then Some(g.value.argument.sym) else None
  }

  /** The first scope, in order, that declares `name` decides. */
  function FirstMatch(scopes: seq<seq<Generic>>, name: string): Option<TypeSym> {
    if scopes == [] then None
    else if Declares(scopes[0], name) then ParamArgument(scopes[0], name)
    else FirstMatch(scopes[1..], name)
  }

  /** A type followed by its containing types, innermost first, ending with
      the outermost type (the one whose ContainingType is null). */
  function ContainingChain(t: TypeSym): (r: seq<TypeSym>)
    ensures |r| >= 1 && r[0] == t
    ensures r[|r| - 1].containingType.None?
    ensures forall j | 0 <= j < |r| - 1 :: r[j].containingType == Some(r[j + 1])
    decreases t
  {
    if t.containingType.None? then [t]
    else
      var outer := ContainingChain(t.containingType.value);
      assert forall j | 1 <= j < |[t] + outer| :: ([t] + outer)[j] == outer[j - 1];
      [t] + outer
  }

  /** The type parameters of each type in a chain. */
  function ScopesOf(ts: seq<TypeSym>): (r: seq<seq<Generic>>)
    ensures |r| == |ts|
    ensures forall j | 0 <= j < |ts| :: r[j] == ts[j].generics
  {
    seq(|ts|, j requires 0 <= j < |ts| => ts[j].generics)
  }

  /** Where a name is looked up from a parameter: the declaring method's own
      type parameters, then those of its containing types; for a parameter
      of a named type, that type's and its containing types'; nowhere for
      any other containing symbol. */
  function Scopes(containing: ContainingSymbol): seq<seq<Generic>> {
    match containing
    case InMethod(m) =>
      [m.generics] + (if m.containingType.Some? then ScopesOf(ContainingChain(m.containingType.value)) else [])
    case InNamedType(t) => ScopesOf(ContainingChain(t))
    case OtherSymbol => []
  }

  /** The target type for an attribute on a parameter: reading the first
      constructor argument throws when there is none; a non-string argument
      names no type; a string names the first type parameter so called, in
      scope order. */
  function TargetType(attr: AttrData, parameter: Parameter): Result<Option<TypeSym>, Fault> {
    var arg :- CtorArg(attr, 0);
    if arg.StringConst? then Success(FirstMatch(Scopes(parameter.containingSymbol), arg.s)) else Success(None)
  }

  /** First-match semantics: no type exactly when no scope declares the name;
      otherwise the type argument of the first declaring scope, every scope
      before it declaring no such name. */
  lemma {:induction false} FirstMatchCharacterized(scopes: seq<seq<Generic>>, name: string)
    ensures FirstMatch(scopes, name).None? <==> forall j | 0 <= j < |scopes| :: !Declares(scopes[j], name)
    ensures FirstMatch(scopes, name).Some? ==>
              exists j | 0 <= j < |scopes| :: Declares(scopes[j], name)
                                              && (forall k | 0 <= k < j :: !Declares(scopes[k], name))
                                              && FirstMatch(scopes, name) == ParamArgument(scopes[j], name)
  {
    if scopes != [] && !Declares(scopes[0], name) {
      FirstMatchCharacterized(scopes[1..], name);
      assert forall j | 1 <= j < |scopes| :: scopes[j] == scopes[1..][j - 1];
      if FirstMatch(scopes, name).Some? {
        var j :| 0 <= j < |scopes[1..]| && Declares(scopes[1..][j], name)
                 && (forall k | 0 <= k < j :: !Declares(scopes[1..][k], name))
                 && FirstMatch(scopes[1..], name) == ParamArgument(scopes[1..][j], name);
        forall k | 0 <= k < j + 1
          ensures !Declares(scopes[k], name)
        {
          if k > 0 {
            assert scopes[k] == scopes[1..][k - 1];
          }
        }
        assert scopes[j + 1] == scopes[1..][j];
      }
    }
  }

  /** A method's own type parameters shadow those of its containing types. */
  lemma MethodTypeParametersFirst(attr: AttrData, m: MethodSym, name: string)
    requires |attr.ctorArgs| >= 1 && attr.ctorArgs[0] == StringConst(name)
    ensures Declares(m.generics, name) ==>
              TargetType(attr, Parameter([], InMethod(m))) == Success(ParamArgument(m.generics, name))
    ensures !Declares(m.generics, name) && m.containingType.Some? ==>
              TargetType(attr, Parameter([], InMethod(m)))
              == TargetType(attr, Parameter([], InNamedType(m.containingType.value)))
    ensures !Declares(m.generics, name) && m.containingType.None? ==>
              TargetType(attr, Parameter([], InMethod(m))) == Success(None)
  {
    var s := Scopes(InMethod(m));
    assert s[0] == m.generics;
    assert s[1..] == (if m.containingType.Some? then ScopesOf(ContainingChain(m.containingType.value)) else []);
    if m.containingType.None? {
      assert FirstMatch(s[1..], name).None?;
    }
  }

  /** A nested type's type parameters shadow those of the types around it,
      and a name declared nowhere in the chain resolves to nothing. */
  lemma ContainingTypesInnermostFirst(t: TypeSym, name: string)
    ensures Declares(t.generics, name) ==> FirstMatch(ScopesOf(ContainingChain(t)), name) == ParamArgument(t.generics, name)
    ensures !Declares(t.generics, name) && t.containingType.Some? ==>
              FirstMatch(ScopesOf(ContainingChain(t)), name) == FirstMatch(ScopesOf(ContainingChain(t.containingType.value)), name)
    ensures !Declares(t.generics, name) && t.containingType.None? ==> FirstMatch(ScopesOf(ContainingChain(t)), name).None?
  {
    var scopes := ScopesOf(ContainingChain(t));
    ScopesOfCons(t);
    assert FirstMatch(scopes, name)
           == if Declares(t.generics, name) then ParamArgument(t.generics, name) else FirstMatch(scopes[1..], name);
  }

  /** The scopes of a type's chain: its own, then its containing type's chain. */
  lemma ScopesOfCons(t: TypeSym)
    ensures ScopesOf(ContainingChain(t))[0] == t.generics
    ensures ScopesOf(ContainingChain(t))[1..]
            == (if t.containingType.Some? then ScopesOf(ContainingChain(t.containingType.value)) else [])
  {
    if t.containingType.Some? {
      var outer := ContainingChain(t.containingType.value);
      assert ContainingChain(t) == [t] + outer;
      assert ScopesOf(ContainingChain(t))[1..] == ScopesOf(outer);
    }
  }

  /** A string argument naming no type parameter in scope gives no target,
      nor does a non-string argument. */
  lemma NoTargetWithoutDeclaration(attr: AttrData, parameter: Parameter)
    requires |attr.ctorArgs| >= 1
    requires attr.ctorArgs[0].StringConst? ==>
               forall j | 0 <= j < |Scopes(parameter.containingSymbol)| ::
                 !Declares(Scopes(parameter.containingSymbol)[j], attr.ctorArgs[0].s)
    ensures TargetType(attr, parameter) == Success(None)
  {
    if attr.ctorArgs[0].StringConst? {
      FirstMatchCharacterized(Scopes(parameter.containingSymbol), attr.ctorArgs[0].s);
    }
  }

  // ---------------------------------------------------------------------
  // The analyzer

  /** The first of the parameter's attributes whose class is called PreferNameOfAttribute. */
  function PreferNameOf(parameter: Parameter): Option<AttrData> {
    FirstOrDefault(parameter.attributes, (a: AttrData) => AttrNamed(a, AttributeName))
  }

  /** `value is ILiteralOperation` with a constant string value. */
  predicate IsStringLiteral(v: ArgumentValue) {
    v.Literal? && v.constantValue.Some? && v.constantValue.value.StringConst?
  }

  /** The number of accessible members of `t` called `name` (properties,
      fields and methods). */
  function AccessibleMembers(t: TypeSym, name: string): nat {
    CountWhere(t.properties, (p: PropSym) => p.name == name && p.accessible)
    + CountWhere(t.fields, (f: FieldSym) => f.name == name && f.accessible)
    + CountWhere(t.methods, (m: MethodSym) => m.name == name && m.accessible)
  }

  /** The loop over one symbol's type parameters: the type argument at the
      index of the first type parameter called `name`. */
  method MatchTypeParameter(gs: seq<Generic>, name: string) returns (r: Option<TypeSym>)
    ensures r == ParamArgument(gs, name)
  {
    for i := 0 to |gs|
      invariant forall k | 0 <= k < i :: gs[k].paramName != name
    {
      if gs[i].paramName == name {
        return Some(gs[i].argument.sym);
      }
    }
    return None;
  }

  /** ResolveFromContainingType: walks from a type out through its
      containing types until one declares the name. */
  method ResolveFromContainingType(typeSymbol: TypeSym, targetTypeName: string) returns (r: Option<TypeSym>)
    ensures r == FirstMatch(ScopesOf(ContainingChain(typeSymbol)), targetTypeName)
  {
    var current := Some(typeSymbol);
    while current.Some?
      invariant current.Some? ==> FirstMatch(ScopesOf(ContainingChain(typeSymbol)), targetTypeName)
                                  == FirstMatch(ScopesOf(ContainingChain(current.value)), targetTypeName)
      invariant current.None? ==> FirstMatch(ScopesOf(ContainingChain(typeSymbol)), targetTypeName).None?
      decreases current
    {
      var t := current.value;
      var found := MatchTypeParameter(t.generics, targetTypeName);
      ContainingTypesInnermostFirst(t, targetTypeName);
      if found.Some? {
        return found;
      }
      current := t.containingType;
    }
    return None;
  }

  /** ResolveTargetType: the attribute's string argument looked up in the
      declaring method's type parameters, then outward from its containing
      type; or outward from the containing named type. */
  method ResolveTargetType(preferNameOfAttr: AttrData, parameter: Parameter) returns (r: Result<Option<TypeSym>, Fault>)
    ensures r == TargetType(preferNameOfAttr, parameter)
  {
    if |preferNameOfAttr.ctorArgs| == 0 {
      return Failure(IndexOutOfRange);
    }
    var arg := preferNameOfAttr.ctorArgs[0];
    if !arg.StringConst? {
      return Success(None);
    }
    var targetTypeName := arg.s;
    match parameter.containingSymbol {
      case InMethod(methodSymbol) =>
        MethodTypeParametersFirst(preferNameOfAttr, methodSymbol, targetTypeName);
        var found := MatchTypeParameter(methodSymbol.generics, targetTypeName);
        if found.Some? {
          return Success(found);
        }
        if methodSymbol.containingType.Some? {
          var t := ResolveFromContainingType(methodSymbol.containingType.value, targetTypeName);
          return Success(t);
        }
        return Success(None);
      case InNamedType(typeSymbol) =>
        var t := ResolveFromContainingType(typeSymbol, targetTypeName);
        return Success(t);
      case OtherSymbol =>
        return Success(None);
    }
  }

  /** AnalyzeArgumentOperation: the report for one argument, if any.  The
      exception ResolveTargetType can raise escapes as a Failure. */
  method AnalyzeArgumentOperation(op: ArgumentOperation) returns (r: Result<Option<Report>, Fault>)
    ensures op.parameter.None? ==> r == Success(None)
    ensures op.parameter.Some? && PreferNameOf(op.parameter.value).None? ==> r == Success(None)
    ensures !IsStringLiteral(op.value) ==> r == Success(None)
    ensures r.Failure? <==> op.parameter.Some? && PreferNameOf(op.parameter.value).Some? && IsStringLiteral(op.value)
                            && |PreferNameOf(op.parameter.value).value.ctorArgs| == 0
    ensures r.Success? && r.value.Some? <==>
              op.parameter.Some? && PreferNameOf(op.parameter.value).Some? && IsStringLiteral(op.value)
              && TargetType(PreferNameOf(op.parameter.value).value, op.parameter.value).Success?
              && TargetType(PreferNameOf(op.parameter.value).value, op.parameter.value).value.Some?
              && AccessibleMembers(TargetType(PreferNameOf(op.parameter.value).value, op.parameter.value).value.value,
                                   op.value.constantValue.value.s) > 0
    ensures r.Success? && r.value.Some? ==>
              r.value.value == AOM202(TargetType(PreferNameOf(op.parameter.value).value, op.parameter.value).value.value.name,
                                      op.value.constantValue.value.s)
  {
    if op.parameter.None? {
      return Success(None);
    }
    var parameter := op.parameter.value;
    var preferNameOfAttr := PreferNameOf(parameter);
    if preferNameOfAttr.None? {
      return Success(None);
    }
    if !IsStringLiteral(op.value) {
      return Success(None);
    }
    var memberName := op.value.constantValue.value.s;
    var targetType :- ResolveTargetType(preferNameOfAttr.value, parameter);
    if targetType.None? {
      return Success(None);
    }
    if AccessibleMembers(targetType.value, memberName) > 0 {
      return Success(Some(AOM202(targetType.value.name, memberName)));
    }
    return Success(None);
  }
}
