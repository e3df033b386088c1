/**
 * The cleaning of module documentation strings: every line loses its leading
 * whitespace and the backslash escapes of the documentation generator are undone.
 */
module Documentation {
  import opened Wrappers
  import opened Strings

  /** The character a backslash followed by `c` stands for, if `c` is one of the escaped ones. */
  function Escaped(c: char): Option<char>
  {
    if c == '\\' || c == '\'' || c == '`' || c == '$' then Some(c)
    else if c == 'n' then Some('\n')
    else if c == 'r' then Some('\r')
    else if c == 't' then Some('\t')
    else None
  }

  /**
   * The meaning of `unescape_backslash`, read from the front: a backslash and an escaped
   * character become that character; every other character, a lone backslash included,
   * is copied.
   */
  function Unescape(s: string): string
  {
    if s == [] then []
    else if s[0] == '\\' && |s| > 1 && Escaped(s[1]).Some? then [Escaped(s[1]).value] + Unescape(s[2..])
    else [s[0]] + Unescape(s[1..])
  }

  /** `unescape_backslash`: the loop over the characters with one character of lookahead. */
  method UnescapeBackslash(s: string) returns (r: string)
    ensures r == Unescape(s)
  {
    r := "";
    var i := 0;
    while i < |s|
      invariant 0 <= i <= |s|
      invariant r + Unescape(s[i..]) == Unescape(s)
    {
      var c := s[i];
      var escaped: Option<char> := None;
      if c == '\\' && i + 1 < |s| {
        escaped := Escaped(s[i + 1]);
      }
      var out := if escaped.Some? then escaped.value else c;
      var next := if escaped.Some? then i + 2 else i + 1;
      UnescapeStep(s, i, r);
      r := r + [out];
      i := next;
    }
  }

  /** One iteration: the output so far and the meaning of the rest still give the whole meaning. */
  lemma UnescapeStep(s: string, i: nat, r: string)
    requires i < |s|
    ensures var e := if s[i] == '\\' && i + 1 < |s| then Escaped(s[i + 1]) else None;
      r + Unescape(s[i..]) == if e.Some? then (r + [e.value]) + Unescape(s[i + 2..]) else (r + [s[i]]) + Unescape(s[i + 1..])
  {
    assert s[i..][0] == s[i];
    if s[i] == '\\' && i + 1 < |s| && Escaped(s[i + 1]).Some? {
      assert s[i..][2..] == s[i + 2..];
    } else {
      assert s[i..][1..] == s[i + 1..];
    }
  }

  /** Unescaping never makes a string longer. */
  lemma {:induction false} UnescapeShorter(s: string)
    ensures |Unescape(s)| <= |s|
  {
    if s != [] {
      if s[0] == '\\' && |s| > 1 && Escaped(s[1]).Some? {
        UnescapeShorter(s[2..]);
      } else {
        UnescapeShorter(s[1..]);
      }
    }
  }

  /** A string without backslashes is left as it is. */
  lemma {:induction false} UnescapeNoBackslash(s: string)
    requires '\\' !in s
    ensures Unescape(s) == s
  {
    if s != [] {
      assert s[0] in s;
      assert forall c :: c in s[1..] ==> c in s;
      UnescapeNoBackslash(s[1..]);
    }
  }

  /** A backslash before any other character, or at the very end, stays in the output. */
  lemma UnescapeKeepsOther(s: string, rest: string)
    requires s == "\\" + rest
    requires rest == [] || Escaped(rest[0]).None?
    ensures Unescape(s) == "\\" + Unescape(rest)
  {
    assert s[1..] == rest;
  }

  /** The escapes of the documentation generator: the inverse of `Unescape`. */
  function Escape(s: string): string
  {
    if s == [] then []
    else
      var c := s[0];
      (if c == '\\' || c == '\'' || c == '`' || c == '$' then ['\\', c]
       else if c == '\n' then "\\n"
       else if c == '\r' then "\\r"
       else if c == '\t' then "\\t"
       else [c]) + Escape(s[1..])
  }

  /** Unescaping undoes escaping for every string. */
  lemma {:induction false} UnescapeEscape(s: string)
    ensures Unescape(Escape(s)) == s
  {
    if s != [] {
      var e := Escape(s);
      var tail := Escape(s[1..]);
      UnescapeEscape(s[1..]);
      var c := s[0];
      if c == '\\' || c == '\'' || c == '`' || c == '$' || c == '\n' || c == '\r' || c == '\t' {
        assert e[2..] == tail;
      } else {
        assert e[1..] == tail;
      }
    }
  }

  /** The unit-test examples of `unescape_backslash`: an escaped dollar sign. */
  lemma UnescapeDollar()
    ensures Unescape("ab\\$c") == "ab$c"
  {
    assert Unescape("c") == "c";
  }

  /** An escaped backslash, also at the very end. */
  lemma UnescapeBackslashes()
    ensures Unescape("ab\\\\cd\\\\") == "ab\\cd\\"
  {
    assert Unescape("\\\\") == "\\";
    assert Unescape("cd\\\\") == "cd\\";
  }

  /** An escaped quote and an escaped tab. */
  lemma UnescapeQuoteTab()
    ensures Unescape("ab\\'cd\\te") == "ab'cd\te"
  {
    assert Unescape("\\te") == "\te";
    assert Unescape("cd\\te") == "cd\te";
  }

  /** An escaped newline at the end. */
  lemma UnescapeNewline()
    ensures Unescape("a\\n") == "a\n"
  {
    assert Unescape("\\n") == "\n";
  }

  /** The cleaning of each line on its own. */
  function CleanLines(lines: seq<string>): (r: seq<string>)
    ensures |r| == |lines|
  {
    if lines == [] then [] else [Unescape(TrimStart(lines[0]))] + CleanLines(lines[1..])
  }

  lemma {:induction false} CleanLinesAt(lines: seq<string>, i: nat)
    requires i < |lines|
    ensures CleanLines(lines)[i] == Unescape(TrimStart(lines[i]))
  {
    if i > 0 {
      CleanLinesAt(lines[1..], i - 1);
    }
  }

  /** `clean_string`: each line has its leading whitespace removed and is unescaped; the lines are joined by newlines. */
  function CleanString(lines: seq<string>): string
  {
    Join(CleanLines(lines), "\n")
  }

  /** One line is just its cleaning; otherwise the first line's cleaning, a newline, and the rest's. */
  lemma CleanStringCons(lines: seq<string>)
    requires lines != []
    ensures |lines| == 1 ==> CleanString(lines) == Unescape(TrimStart(lines[0]))
    ensures |lines| >= 2 ==> CleanString(lines) == Unescape(TrimStart(lines[0])) + "\n" + CleanString(lines[1..])
  {
    assert CleanLines(lines)[1..] == CleanLines(lines[1..]);
  }
}
