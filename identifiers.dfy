/** MySQL identifier quoting: a table, column or constraint name is wrapped in
    backticks when it needs quoting and emitted bare otherwise. */
module Identifiers {
  import opened Results
  import opened Strings

  predicate IsUpper(c: char) {
    'A' <= c <= 'Z'
  }

  /** A name needs quoting when it holds an upper-case letter or a space. */
  predicate NeedsQuoting(name: string) {
    exists i :: 0 <= i < |name| && (IsUpper(name[i]) || name[i] == ' ')
  }

  /** The name as it appears in a statement. Each name is quoted on its own. */
  function Quote(name: string): (r: string)
    ensures r == name <==> !NeedsQuoting(name)
    ensures r != name ==> r == "`" + name + "`"
  {
    if NeedsQuoting(name) then "`" + name + "`" else name
  }

  /** Reads one identifier at the front of `s`: a backtick-quoted one up to its
      closing backtick, or a bare one up to the next space. Returns the name and
      the text after it. */
  function ParseIdentifier(s: string): (r: Option<(string, string)>)
    ensures r.Some? ==> |r.value.1| <= |s|
  {
    if |s| > 0 && s[0] == '`' then
      var name := Span(s[1..], '`');
      if |name| + 1 < |s| then Some((name, s[|name| + 2..])) else None
    else
      var name := Span(s, ' ');
      Some((name, s[|name|..]))
  }

  /** Quoting is undone by reading the identifier back, whether or not the name
      needed quoting, provided the name holds no backtick and a bare name is
      followed by a space or by nothing. */
  lemma ParseQuote(name: string, rest: string)
    requires '`' !in name
    requires rest == [] || rest[0] == ' '
    ensures ParseIdentifier(Quote(name) + rest) == Some((name, rest))
  {
    if NeedsQuoting(name) {
      var s := Quote(name) + rest;
      assert s[1..] == name + ("`" + rest);
      SpanOfWord(name, '`', "`" + rest);
      assert s[|name| + 2..] == rest;
    } else {
      assert ' ' !in name;
      SpanOfWord(name, ' ', rest);
      StartsWithAppend(name, rest);
    }
  }
}
