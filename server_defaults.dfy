/** Rendering of a column's server default into MySQL text: a plain string is a
    quoted literal, an SQL expression is compiled, with function calls nested to
    any depth and the built-in `current_timestamp` written as a bare keyword. */
module ServerDefaults {
  import opened Results
  import opened Strings

  /** An SQL expression: raw text passed through as given, or a call of a
      function (by its name) on argument expressions. */
  datatype SqlExpr = RawText(sql: string) | Call(name: string, args: seq<SqlExpr>)

  /** A server default: a string value, or an SQL expression. */
  datatype ServerDefault = StringDefault(text: string) | ExprDefault(expr: SqlExpr)

  const CurrentTimestampName: string := "current_timestamp"
  const CurrentTimestampKeyword: string := "CURRENT_TIMESTAMP"

  /** Built-in functions render as a keyword, without parentheses. */
  predicate IsBuiltin(name: string) {
    name == CurrentTimestampName
  }

  /** Raw text as given; a user function as `name(args)`; the built-in as its
      keyword alone, so any arguments it is given are dropped. */
  function RenderExpr(e: SqlExpr): (r: string)
    ensures e.Call? && IsBuiltin(e.name) ==> r == CurrentTimestampKeyword
    ensures e.Call? && !IsBuiltin(e.name) ==> StartsWith(r, e.name + "(") && EndsWith(r, ")")
    decreases e
  {
    match e
    case RawText(sql) => sql
    case Call(name, args) =>
      if IsBuiltin(name) then CurrentTimestampKeyword else name + "(" + RenderArgs(args) + ")"
  }

  /** Arguments separated by ", ". */
  function RenderArgs(args: seq<SqlExpr>): string
    decreases args
  {
    if args == [] then "" else RenderExpr(args[0]) + RenderMoreArgs(args[1..])
  }

  /** Arguments after the first, each preceded by ", ". */
  function RenderMoreArgs(args: seq<SqlExpr>): string
    decreases args
  {
    if args == [] then "" else ", " + RenderExpr(args[0]) + RenderMoreArgs(args[1..])
  }

  /** The text after DEFAULT: a string in single quotes, an expression compiled. */
  function RenderDefault(d: ServerDefault): (r: string)
    ensures d.StringDefault? ==>
      |r| == |d.text| + 2 && r[0] == '\'' && r[|r| - 1] == '\'' && r[1..|r| - 1] == d.text
  {
    match d
    case StringDefault(s) => "'" + s + "'"
    case ExprDefault(e) => RenderExpr(e)
  }

  // ---------------------------------------------------------------------------
  // Reading a rendered default back.

  predicate IsNameChar(c: char) {
    'a' <= c <= 'z' || '0' <= c <= '9' || c == '_'
  }

  /** A plain function name: non-empty, lower-case letters, digits and `_`. */
  predicate IsPlainName(name: string) {
    |name| > 0 && forall i :: 0 <= i < |name| ==> IsNameChar(name[i])
  }

  /** Expressions whose rendering can be read back: no raw text, plain user
      function names, and the built-in called without arguments. */
  predicate WellFormedExpr(e: SqlExpr)
    decreases e
  {
    match e
    case RawText(_) => false
    case Call(name, args) =>
      if IsBuiltin(name) then args == []
      else IsPlainName(name) && forall a :: a in args ==> WellFormedExpr(a)
  }

  predicate WellFormedDefault(d: ServerDefault) {
    match d
    case StringDefault(s) => '\'' !in s
    case ExprDefault(e) => WellFormedExpr(e)
  }

  /** The longest prefix of `s` made of name characters. */
  function NameSpan(s: string): (r: string)
    ensures |r| <= |s| && r == s[..|r|]
    ensures forall i :: 0 <= i < |r| ==> IsNameChar(r[i])
    ensures |r| < |s| ==> !IsNameChar(s[|r|])
  {
    if s == [] || !IsNameChar(s[0]) then [] else [s[0]] + NameSpan(s[1..])
  }

  /** Reads one expression at the front of `s`; returns it and the text after it. */
  function ParseExpr(s: string): (r: Option<(SqlExpr, string)>)
    ensures r.Some? ==> |r.value.1| < |s|
    decreases |s|, 0
  {
    if StartsWith(s, CurrentTimestampKeyword) then
      Some((Call(CurrentTimestampName, []), s[|CurrentTimestampKeyword|..]))
    else
      var name := NameSpan(s);
      if name == [] || IsBuiltin(name) || |name| == |s| || s[|name|] != '(' then None
      else ParseCall(name, s[|name| + 1..])
  }

  /** Reads the arguments of a call to `name` after its opening parenthesis. */
  function ParseCall(name: string, s: string): (r: Option<(SqlExpr, string)>)
    ensures r.Some? ==> |r.value.1| < |s|
    decreases |s|, 2
  {
    match ParseArgs(s)
    case None => None
    case Some((args, rest)) => Some((Call(name, args), rest))
  }

  /** Reads an argument list and its closing parenthesis. */
  function ParseArgs(s: string): (r: Option<(seq<SqlExpr>, string)>)
    ensures r.Some? ==> |r.value.1| < |s|
    decreases |s|, 1
  {
    if StartsWith(s, ")") then Some(([], s[1..]))
    else
      match ParseExpr(s)
      case None => None
      case Some((first, rest)) =>
        match ParseMoreArgs(rest)
        case None => None
        case Some((others, rest')) => Some(([first] + others, rest'))
  }

  /** Reads the arguments after the first and the closing parenthesis. */
  function ParseMoreArgs(s: string): (r: Option<(seq<SqlExpr>, string)>)
    ensures r.Some? ==> |r.value.1| < |s|
    decreases |s|, 1
  {
    if StartsWith(s, ")") then Some(([], s[1..]))
    else if StartsWith(s, ", ") then
      match ParseExpr(s[2..])
      case None => None
      case Some((next, rest)) =>
        match ParseMoreArgs(rest)
        case None => None
        case Some((others, rest')) => Some(([next] + others, rest'))
    else None
  }

  /** Reads a whole rendered default. */
  function ParseDefault(s: string): Option<ServerDefault> {
    if |s| >= 2 && s[0] == '\'' && s[|s| - 1] == '\'' && '\'' !in s[1..|s| - 1] then
      Some(StringDefault(s[1..|s| - 1]))
    else
      match ParseExpr(s)
      case None => None
      case Some((e, rest)) => if rest == [] then Some(ExprDefault(e)) else None
  }

  // ---------------------------------------------------------------------------
  // Properties of the rendering.

  /** A well-formed expression renders to non-empty text that starts with a name
      character or the built-in keyword's `C`, and ends with `)` or `P`. */
  lemma RenderExprShape(e: SqlExpr)
    requires WellFormedExpr(e)
    ensures var t := RenderExpr(e);
      |t| > 0 && (IsNameChar(t[0]) || t[0] == 'C') && (t[|t| - 1] == ')' || t[|t| - 1] == 'P')
  {
  }

  /** Rendering a well-formed expression is undone by reading it back, whatever
      text follows it. */
  lemma {:induction false} ParseRenderExpr(e: SqlExpr, rest: string)
    requires WellFormedExpr(e)
    ensures ParseExpr(RenderExpr(e) + rest) == Some((e, rest))
    decreases e
  {
    var s := RenderExpr(e) + rest;
    var Call(name, args) := e;
    if IsBuiltin(name) {
      StartsWithAppend(CurrentTimestampKeyword, rest);
    } else {
      assert forall a :: a in args ==> WellFormedExpr(a);
      var args' := RenderArgs(args);
      var inner := args' + ")" + rest;
      AppendAssoc(name + "(" + args', ")", rest);
      AppendAssoc(name + "(", args', ")" + rest);
      AppendAssoc(args', ")", rest);
      AppendAssoc(name, "(", inner);
      StartsWithAppend(name + "(", inner);
      assert s[0] == name[0] && IsNameChar(s[0]);
      assert !StartsWith(s, CurrentTimestampKeyword) by {
        assert CurrentTimestampKeyword[0] == 'C';
      }
      NameSpanOfWord(name, "(" + inner);
      assert s[|name|] == '(';
      assert s[|name| + 1..] == inner;
      ParseRenderArgs(args, rest);
      ParseCallStep(s, name);
    }
  }

  lemma {:induction false} ParseRenderArgs(args: seq<SqlExpr>, rest: string)
    requires forall a :: a in args ==> WellFormedExpr(a)
    ensures ParseArgs(RenderArgs(args) + ")" + rest) == Some((args, rest))
    decreases args
  {
    if args != [] {
      var tail := RenderMoreArgs(args[1..]) + ")" + rest;
      var first, more := RenderExpr(args[0]), RenderMoreArgs(args[1..]);
      var s := RenderArgs(args) + ")" + rest;
      AppendAssoc(first + more, ")", rest);
      AppendAssoc(first, more, ")" + rest);
      AppendAssoc(more, ")", rest);
      RenderExprShape(args[0]);
      assert s[0] == RenderExpr(args[0])[0];
      assert !StartsWith(s, ")");
      ParseRenderExpr(args[0], tail);
      ParseRenderMoreArgs(args[1..], rest);
      assert [args[0]] + args[1..] == args;
    }
  }

  lemma {:induction false} ParseRenderMoreArgs(args: seq<SqlExpr>, rest: string)
    requires forall a :: a in args ==> WellFormedExpr(a)
    ensures ParseMoreArgs(RenderMoreArgs(args) + ")" + rest) == Some((args, rest))
    decreases args
  {
    if args != [] {
      var tail := RenderMoreArgs(args[1..]) + ")" + rest;
      var next, more := RenderExpr(args[0]), RenderMoreArgs(args[1..]);
      var s := RenderMoreArgs(args) + ")" + rest;
      AppendAssoc(", " + next + more, ")", rest);
      AppendAssoc(", " + next, more, ")" + rest);
      AppendAssoc(more, ")", rest);
      AppendAssoc(", ", next, tail);
      StartsWithAppend(", ", RenderExpr(args[0]) + tail);
      assert !StartsWith(s, ")") by { assert s[0] == ','; }
      ParseRenderExpr(args[0], tail);
      ParseRenderMoreArgs(args[1..], rest);
      assert [args[0]] + args[1..] == args;
    }
  }

  /** How a call is read once its name and opening parenthesis are found. */
  lemma ParseCallStep(s: string, name: string)
    requires !StartsWith(s, CurrentTimestampKeyword)
    requires NameSpan(s) == name && name != [] && !IsBuiltin(name)
    requires |name| < |s| && s[|name|] == '('
    ensures ParseExpr(s) == ParseCall(name, s[|name| + 1..])
  {
  }

  lemma {:induction false} NameSpanOfWord(w: string, rest: string)
    requires forall i :: 0 <= i < |w| ==> IsNameChar(w[i])
    requires rest == [] || !IsNameChar(rest[0])
    ensures NameSpan(w + rest) == w
  {
    if w != [] {
      assert (w + rest)[1..] == w[1..] + rest;
      NameSpanOfWord(w[1..], rest);
    }
  }

  /** Rendering a well-formed default is undone by reading it back. */
  lemma ParseRenderDefault(d: ServerDefault)
    requires WellFormedDefault(d)
    ensures ParseDefault(RenderDefault(d)) == Some(d)
  {
    match d
    case StringDefault(s) =>
      var t := RenderDefault(d);
      assert t[1..|t| - 1] == s;
    case ExprDefault(e) =>
      RenderExprShape(e);
      ParseRenderExpr(e, []);
      assert RenderExpr(e) + [] == RenderExpr(e);
  }

  /** A rendered well-formed default never ends in `T`, so it cannot be mistaken
      for a trailing AUTO_INCREMENT clause. */
  lemma RenderDefaultLastChar(d: ServerDefault)
    requires WellFormedDefault(d)
    ensures var t := RenderDefault(d); |t| > 0 && t[|t| - 1] != 'T'
  {
    if d.ExprDefault? {
      RenderExprShape(d.expr);
    }
  }
}
