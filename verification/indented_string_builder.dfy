/** IndentedStringBuilder (Utils/IndentedStringBuilder.cs): a StringBuilder
    with an indent level, an at-start-of-line flag, and disposable scopes
    that indent.  Each non-empty Append writes its characters in order, and
    `IndentLevel` copies of the indent string before every character that
    opens a line.

    The wrapped StringBuilder is a `StringBuffer` object, so a builder made
    over an existing buffer shares it with its caller.  `Environment.NewLine`
    is the constant `NewLine`. */
module IndentedStringBuilder {
  import opened Wrappers

  /** `Environment.NewLine`, on the platforms the generator runs on in this model. */
  const NewLine: string := "\n"

  /** The default `indentString` argument. */
  const DefaultIndent: string := "    "

  /** `ArgumentNullException(nameof(indentString))` */
  datatype ArgumentError = ArgumentNull(paramName: string)

  // ---------------------------------------------------------------------
  // The text an Append writes

  /** `n` copies of `s`: what the indentation loop writes (none for n <= 0). */
  function Repeat(s: string, n: int): (r: string)
    ensures n <= 0 ==> r == ""
    decreases n
  {
    if n <= 0 then "" else Repeat(s, n - 1) + s
  }

  /** The indentation is `n` copies: n times as long as the indent string. */
  lemma {:induction false} RepeatLength(s: string, n: int)
    ensures n > 0 ==> |Repeat(s, n)| == n * |s|
    decreases n
  {
    if n > 0 {
      RepeatLength(s, n - 1);
      assert |Repeat(s, n)| == |Repeat(s, n - 1)| + |s|;
    }
  }

  /** The at-start flag after writing `s` from flag `atStart`: unchanged by
      nothing, otherwise whether the last character was a newline. */
  function AtStartAfter(s: string, atStart: bool): bool {
    if s == [] then atStart else s[|s| - 1] == '\n'
  }

  /** What Append writes for `s` from flag `atStart` with indentation
      `prefix`: each character, preceded by the prefix when it opens a line. */
  function Written(s: string, atStart: bool, prefix: string): string
    decreases |s|
  {
    if s == [] then []
    else
      var init := s[..|s| - 1];
      Written(init, atStart, prefix) + (if AtStartAfter(init, atStart) then prefix else "") + [s[|s| - 1]]
  }

  lemma WrittenSnoc(s: string, k: nat, atStart: bool, prefix: string)
    requires k < |s|
    ensures Written(s[..k + 1], atStart, prefix)
            == Written(s[..k], atStart, prefix) + (if AtStartAfter(s[..k], atStart) then prefix else "") + [s[k]]
    ensures AtStartAfter(s[..k + 1], atStart) == (s[k] == '\n')
  {
    assert s[..k + 1][..k] == s[..k];
  }

  /** Two Appends write what one Append of the concatenation writes. */
  lemma {:induction false} WrittenAppend(a: string, b: string, atStart: bool, prefix: string)
    ensures Written(a + b, atStart, prefix) == Written(a, atStart, prefix) + Written(b, AtStartAfter(a, atStart), prefix)
    ensures AtStartAfter(a + b, atStart) == AtStartAfter(b, AtStartAfter(a, atStart))
    decreases |b|
  {
    if b == [] {
      assert a + b == a;
    } else {
      var init, last := b[..|b| - 1], b[|b| - 1];
      var mid := AtStartAfter(a, atStart);
      assert (a + b)[..|a + b| - 1] == a + init;
      assert (a + b)[|a + b| - 1] == last;
      WrittenAppend(a, init, atStart, prefix);
      calc {
        Written(a + b, atStart, prefix);
        Written(a + init, atStart, prefix) + (if AtStartAfter(a + init, atStart) then prefix else "") + [last];
        Written(a, atStart, prefix) + Written(init, mid, prefix) + (if AtStartAfter(init, mid) then prefix else "") + [last];
        Written(a, atStart, prefix) + Written(b, mid, prefix);
      }
    }
  }

  /** Within a line nothing but the characters is written. */
  lemma {:induction false} WrittenMidLine(s: string, prefix: string)
    requires forall i | 0 <= i < |s| :: s[i] != '\n'
    ensures Written(s, false, prefix) == s
    decreases |s|
  {
    if s != [] {
      var init := s[..|s| - 1];
      WrittenMidLine(init, prefix);
      assert s == init + [s[|s| - 1]];
    }
  }

  /** A line started at the start of a line gets the prefix once, before
      its first character, and none after. */
  lemma {:induction false} WrittenLine(line: string, prefix: string)
    requires line != [] && forall i | 0 <= i < |line| :: line[i] != '\n'
    ensures Written(line, true, prefix) == prefix + line
    ensures !AtStartAfter(line, true)
    decreases |line|
  {
    var init := line[..|line| - 1];
    if init == [] {
      assert line == [line[0]];
    } else {
      WrittenLine(init, prefix);
      assert init[|init| - 1] == line[|line| - 2];
      assert line == init + [line[|line| - 1]];
    }
  }

  /** Written front to back: the first character, preceded by the prefix
      when it opens a line, then the rest from the flag it leaves. */
  lemma WrittenFirst(s: string, atStart: bool, prefix: string)
    requires s != []
    ensures Written(s, atStart, prefix) == (if atStart then prefix else "") + [s[0]] + Written(s[1..], s[0] == '\n', prefix)
  {
    assert s == [s[0]] + s[1..];
    WrittenAppend([s[0]], s[1..], atStart, prefix);
    assert [s[0]][..0] == [];
  }

  /** A newline is written as is, and the next character opens a line. */
  lemma WrittenNewline(atStart: bool, prefix: string)
    ensures Written("\n", atStart, prefix) == (if atStart then prefix else "") + "\n"
    ensures AtStartAfter("\n", atStart)
  {
    assert "\n"[..0] == [];
  }

  // ---------------------------------------------------------------------
  // The wrapped StringBuilder

  /** The StringBuilder the class writes to: only its text matters here. */
  class StringBuffer {
    var contents: string

    constructor ()
      ensures contents == ""
    {
      contents := "";
    }

    method Append(s: string)
      modifies this
      ensures contents == old(contents) + s
    {
      contents := contents + s;
    }

    method AppendLine()
      modifies this
      ensures contents == old(contents) + NewLine
    {
      contents := contents + NewLine;
    }

    method Clear()
      modifies this
      ensures contents == ""
    {
      contents := "";
    }
  }

  // ---------------------------------------------------------------------
  // The builder

  class Builder {
    const sb: StringBuffer
    var atStartOfLine: bool
    const indentString: string
    var indentLevel: int

    /** The indentation a line opened now receives. */
    function Indentation(): string
      reads this
    {
      Repeat(indentString, indentLevel)
    }

    /** `IndentedStringBuilder(StringBuilder stringBuilder, string indentString)`
        with a non-null indent string: the buffer is the caller's, at the
        start of a line, at level 0. */
    constructor Over(stringBuilder: StringBuffer, indentString: string)
      ensures sb == stringBuilder && this.indentString == indentString
      ensures atStartOfLine && indentLevel == 0
    {
      sb := stringBuilder;
      this.indentString := indentString;
      atStartOfLine := true;
      indentLevel := 0;
    }

    /** `new IndentedStringBuilder(indentString)`: a fresh empty buffer, or
        ArgumentNullException for a null indent string. */
    static method Create(indentString: Option<string>) returns (r: Result<Builder, ArgumentError>)
      ensures indentString.None? <==> r.Failure?
      ensures r.Failure? ==> r.error == ArgumentNull("indentString")
      ensures r.Success? ==>
                && fresh(r.value) && fresh(r.value.sb)
                && r.value.sb.contents == "" && r.value.indentString == indentString.value
                && r.value.atStartOfLine && r.value.indentLevel == 0
    {
      var buffer := new StringBuffer();
      if indentString.None? {
        return Failure(ArgumentNull("indentString"));
      }
      var b := new Builder.Over(buffer, indentString.value);
      r := Success(b);
    }

    /** `new IndentedStringBuilder(stringBuilder, indentString)`: the
        caller's buffer, or ArgumentNullException for a null indent string. */
    static method CreateOver(stringBuilder: StringBuffer, indentString: Option<string>) returns (r: Result<Builder, ArgumentError>)
      ensures indentString.None? <==> r.Failure?
      ensures r.Failure? ==> r.error == ArgumentNull("indentString")
      ensures r.Success? ==>
                && fresh(r.value) && r.value.sb == stringBuilder
                && r.value.indentString == indentString.value
                && r.value.atStartOfLine && r.value.indentLevel == 0
    {
      if indentString.None? {
        return Failure(ArgumentNull("indentString"));
      }
      var b := new Builder.Over(stringBuilder, indentString.value);
      r := Success(b);
    }

    /** WriteIndentIfNeeded: at the start of a line, IndentLevel copies of
        the indent string, and the line is no longer at its start. */
    method WriteIndentIfNeeded()
      modifies this, sb
      ensures sb.contents == old(sb.contents) + (if old(atStartOfLine) then Indentation() else "")
      ensures !atStartOfLine && indentLevel == old(indentLevel)
    {
      if atStartOfLine {
        var i := 0;
        while i < indentLevel
          invariant 0 <= i && (indentLevel >= 0 ==> i <= indentLevel) && (indentLevel < 0 ==> i == 0)
          invariant sb.contents == old(sb.contents) + Repeat(indentString, i)
          invariant atStartOfLine && indentLevel == old(indentLevel)
        {
          sb.Append(indentString);
          i := i + 1;
        }
        atStartOfLine := false;
      }
    }

    /** Append(value): nothing for null or empty; otherwise each character
        in order, each opening a line preceded by the indentation. */
    method Append(value: Option<string>)
      modifies this, sb
      ensures var s := if value.Some? then value.value else "";
              && sb.contents == old(sb.contents) + Written(s, old(atStartOfLine), old(Indentation()))
              && atStartOfLine == AtStartAfter(s, old(atStartOfLine))
      ensures indentLevel == old(indentLevel)
    {
      if value.None? || value.value == "" {
        return;
      }
      var s := value.value;
      ghost var contents0, atStart0, prefix := sb.contents, atStartOfLine, Indentation();
      ghost var w: string := [];
      for k := 0 to |s|
        invariant w == Written(s[..k], atStart0, prefix) && sb.contents == contents0 + w
        invariant atStartOfLine == AtStartAfter(s[..k], atStart0)
        invariant indentLevel == old(indentLevel) && Indentation() == prefix
      {
        WrittenSnoc(s, k, atStart0, prefix);
        AppendChar(s[k]);
        w := w + (if AtStartAfter(s[..k], atStart0) then prefix else "") + [s[k]];
      }
      assert s[..|s|] == s;
    }

    /** One character of Append's loop: the indentation when it opens a
        line, then the character; a newline leaves the builder at the start
        of a line. */
    method AppendChar(c: char)
      modifies this, sb
      ensures sb.contents == old(sb.contents) + (if old(atStartOfLine) then old(Indentation()) else "") + [c]
      ensures atStartOfLine == (c == '\n') && indentLevel == old(indentLevel)
    {
      WriteIndentIfNeeded();
      sb.Append([c]);
      if c == '\n' {
        atStartOfLine := true;
      }
    }

    /** AppendLine(): a newline with no indentation; the next line is at its start. */
    method AppendEmptyLine()
      modifies this, sb
      ensures sb.contents == old(sb.contents) + NewLine
      ensures atStartOfLine && indentLevel == old(indentLevel)
    {
      sb.AppendLine();
      atStartOfLine := true;
    }

    /** AppendLine(value): Append(value), then a newline. */
    method AppendLine(value: string)
      modifies this, sb
      ensures sb.contents == old(sb.contents) + Written(value, old(atStartOfLine), old(Indentation())) + NewLine
      ensures atStartOfLine && indentLevel == old(indentLevel)
    {
      Append(Some(value));
      sb.AppendLine();
      atStartOfLine := true;
    }

    /** ToString(): the buffer's text. */
    function ToString(): (r: string)
      reads this, sb
      ensures r == sb.contents
    {
      sb.contents
    }

    /** Clear(): an empty buffer, at the start of a line, at level 0. */
    method Clear()
      modifies this, sb
      ensures sb.contents == "" && atStartOfLine && indentLevel == 0
    {
      sb.Clear();
      atStartOfLine := true;
      indentLevel := 0;
    }

    /** Indent(): one level deeper until the scope is disposed. */
    method Indent() returns (scope: IndentScope)
      modifies this
      ensures fresh(scope) && scope.parent == this && !scope.disposed
      ensures indentLevel == old(indentLevel) + 1 && atStartOfLine == old(atStartOfLine)
    {
      scope := new IndentScope(this);
    }

    /** IndentBlock(header, open, close): the header and open lines at the
        current level, then one level deeper until the scope is disposed. */
    method IndentBlock(header: string, open: string, close: string) returns (scope: IndentBlockScope)
      modifies this, sb
      ensures fresh(scope) && scope.parent == this && scope.close == close && !scope.disposed
      ensures sb.contents == old(sb.contents) + Written(header, old(atStartOfLine), old(Indentation())) + NewLine
                                            + Written(open, true, old(Indentation())) + NewLine
      ensures indentLevel == old(indentLevel) + 1 && atStartOfLine
    {
      scope := new IndentBlockScope(this, header, open, close);
    }
  }

  /** IndentScope: raises its builder's level on creation and lowers it on
      the first Dispose only. */
  class IndentScope {
    const parent: Builder
    var disposed: bool

    constructor (parent: Builder)
      modifies parent
      ensures this.parent == parent && !disposed
      ensures parent.indentLevel == old(parent.indentLevel) + 1
      ensures parent.atStartOfLine == old(parent.atStartOfLine)
    {
      this.parent := parent;
      disposed := false;
      parent.indentLevel := parent.indentLevel + 1;
    }

    method Dispose()
      modifies this, parent
      ensures disposed
      ensures parent.indentLevel == if old(disposed) then old(parent.indentLevel) else old(parent.indentLevel) - 1
      ensures parent.atStartOfLine == old(parent.atStartOfLine)
    {
      if !disposed {
        parent.indentLevel := parent.indentLevel - 1;
        disposed := true;
      }
    }
  }

  /** IndentBlockScope: writes the header and open lines and indents on
      creation; on the first Dispose only, un-indents and writes the close
      line at the outer level. */
  class IndentBlockScope {
    const parent: Builder
    var disposed: bool
    const close: string

    constructor (parent: Builder, header: string, open: string, close: string)
      modifies parent, parent.sb
      ensures this.parent == parent && this.close == close && !disposed
      ensures parent.sb.contents == old(parent.sb.contents)
                                    + Written(header, old(parent.atStartOfLine), old(parent.Indentation())) + NewLine
                                    + Written(open, true, old(parent.Indentation())) + NewLine
      ensures parent.indentLevel == old(parent.indentLevel) + 1 && parent.atStartOfLine
    {
      this.parent := parent;
      this.close := close;
      disposed := false;
      new;
      parent.AppendLine(header);
      parent.AppendLine(open);
      parent.indentLevel := parent.indentLevel + 1;
    }

    method Dispose()
      modifies this, parent, parent.sb
      ensures disposed
      ensures old(disposed) ==> parent.indentLevel == old(parent.indentLevel) && parent.sb.contents == old(parent.sb.contents)
                                && parent.atStartOfLine == old(parent.atStartOfLine)
      ensures !old(disposed) ==>
                && parent.indentLevel == old(parent.indentLevel) - 1
                && parent.sb.contents == old(parent.sb.contents)
                                         + Written(close, old(parent.atStartOfLine), Repeat(parent.indentString, old(parent.indentLevel) - 1))
                                         + NewLine
                && parent.atStartOfLine
    {
      if !disposed {
        parent.indentLevel := parent.indentLevel - 1;
        parent.AppendLine(close);
        disposed := true;
      }
    }
  }
}
