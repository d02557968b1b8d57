/** The "apply" command: the serialised document with its double quotes and
    newlines escaped, wrapped in `echo "…" > <config path>`. The escape is
    two global replacements applied one after the other: every `"` becomes
    `\"`, then every newline becomes the two characters `\n`. */
module ShellCommand {

  /** Text that replaces a double quote. */
  const EscapedQuote: string := "\\\""
  /** Text that replaces a newline. */
  const EscapedNewline: string := "\\n"

  /** What stands before the escaped JSON in the command. */
  const EchoOpen: string := "echo \""
  /** The redirect to Claude's desktop configuration file, with the space in
      `Application Support` escaped by a backslash. It is written in short
      pieces because the verifier cannot check membership facts against one
      long literal; the pieces join to the single path string. */
  const Redirect: string :=
    " > ~/Library/" + "Application\\ " + "Support/" + "Claude/" + "claude_desktop" + "_config.json"
  /** What stands after the escaped JSON: the closing quote and the redirect. */
  const EchoClose: string := "\"" + Redirect

  /** The fixed parts of the command hold no raw newline, and the redirect no quote. */
  lemma FixedPartsPlain()
    ensures '"' !in Redirect && '\n' !in Redirect
    ensures '\n' !in EchoOpen && '\n' !in EchoClose
    ensures forall j | 0 <= j < |EchoOpen| - 1 :: EchoOpen[j] != '"'
  {
  }

  /** `s.replace(/c/g, with)`: every occurrence of the character `c` replaced with `with`. */
  function ReplaceAll(s: string, c: char, with: string): (r: string)
    ensures c !in with ==> c !in r
    ensures |with| == 2 ==> |r| == |s| + multiset(s)[c]
    ensures forall d | d != c && d !in with :: multiset(r)[d] == multiset(s)[d]
  {
    if s == [] then []
    else
      assert s == [s[0]] + s[1..];
      (if s[0] == c then with else [s[0]]) + ReplaceAll(s[1..], c, with)
  }

  /** The escape as the source writes it: quotes first, then newlines. */
  function Escape(s: string): (r: string)
    ensures '\n' !in r
    ensures |r| == |s| + multiset(s)['"'] + multiset(s)['\n']
    ensures forall d | d !in "\"\n\\n" :: multiset(r)[d] == multiset(s)[d]
  {
    ReplaceAll(ReplaceAll(s, '"', EscapedQuote), '\n', EscapedNewline)
  }

  /** The escape of one character, on its own. */
  function EscapeChar(c: char): (r: string)
    ensures |r| > 0 && r[0] != '"' && '\n' !in r
  {
    if c == '"' then EscapedQuote
    else if c == '\n' then EscapedNewline
    else [c]
  }

  /** A reference definition of the escape in one pass, character by character. */
  function EscapeEach(s: string): (r: string)
    ensures |r| > 0 ==> r[0] != '"'
  {
    if s == [] then [] else EscapeChar(s[0]) + EscapeEach(s[1..])
  }

  /** Every double quote in `t` has a backslash right before it. */
  predicate QuotesEscaped(t: string)
  {
    forall i | 0 <= i < |t| && t[i] == '"' :: 0 < i && t[i - 1] == '\\'
  }

  lemma {:induction false} ReplaceAllConcat(a: string, b: string, c: char, with: string)
    ensures ReplaceAll(a + b, c, with) == ReplaceAll(a, c, with) + ReplaceAll(b, c, with)
  {
    if a == [] {
      assert a + b == b;
    } else {
      assert (a + b)[0] == a[0];
      assert (a + b)[1..] == a[1..] + b;
      ReplaceAllConcat(a[1..], b, c, with);
    }
  }

  lemma {:induction false} ReplaceAllAbsent(s: string, c: char, with: string)
    requires c !in s
    ensures ReplaceAll(s, c, with) == s
  {
    if s != [] {
      assert c !in s[1..];
      ReplaceAllAbsent(s[1..], c, with);
    }
  }

  /** The two global replacements do the same as escaping each character in
      turn: no character is lost, reordered or escaped twice. */
  lemma {:induction false} EscapeIsPerCharacter(s: string)
    ensures Escape(s) == EscapeEach(s)
  {
    if s != [] {
      var x, t := s[0], s[1..];
      var head := if x == '"' then EscapedQuote else [x];
      var inner := ReplaceAll(t, '"', EscapedQuote);
      assert ReplaceAll(s, '"', EscapedQuote) == head + inner;
      ReplaceAllConcat(head, inner, '\n', EscapedNewline);
      if x == '"' {
        ReplaceAllAbsent(EscapedQuote, '\n', EscapedNewline);
      } else {
        assert [x][1..] == [];
      }
      assert ReplaceAll(head, '\n', EscapedNewline) == EscapeChar(x);
      EscapeIsPerCharacter(t);
    }
  }

  lemma {:induction false} EscapeEachQuotesEscaped(s: string)
    ensures QuotesEscaped(EscapeEach(s))
  {
    if s != [] {
      var h, rest := EscapeChar(s[0]), EscapeEach(s[1..]);
      EscapeEachQuotesEscaped(s[1..]);
      var r := h + rest;
      forall i | 0 <= i < |r| && r[i] == '"'
        ensures 0 < i && r[i - 1] == '\\'
      {
        if i < |h| {
          assert h == EscapedQuote;
        } else {
          assert rest[i - |h|] == '"';
          assert r[i - 1] == rest[i - |h| - 1];
        }
      }
    }
  }

  /** Every double quote the escape produces is preceded by a backslash. */
  lemma QuotesAreEscaped(s: string)
    ensures QuotesEscaped(Escape(s))
  {
    EscapeIsPerCharacter(s);
    EscapeEachQuotesEscaped(s);
  }

  /** Escaping is done piecewise: the escape of a concatenation is the
      concatenation of the escapes. */
  lemma EscapeConcat(a: string, b: string)
    ensures Escape(a + b) == Escape(a) + Escape(b)
  {
    ReplaceAllConcat(a, b, '"', EscapedQuote);
    ReplaceAllConcat(ReplaceAll(a, '"', EscapedQuote), ReplaceAll(b, '"', EscapedQuote), '\n', EscapedNewline);
  }

  /** Text with neither a double quote nor a newline passes through unchanged. */
  lemma EscapeIdentity(s: string)
    requires '"' !in s && '\n' !in s
    ensures Escape(s) == s
  {
    ReplaceAllAbsent(s, '"', EscapedQuote);
    ReplaceAllAbsent(s, '\n', EscapedNewline);
  }

  /** Backslashes are not escaped, so a raw newline and the two characters
      `\n` give the same output: the escape cannot be undone. */
  lemma EscapeNotInjective()
    ensures Escape("\n") == Escape("\\n") && "\n" != "\\n"
  {
    EscapeIdentity("\\n");
    assert ReplaceAll("\n", '"', EscapedQuote) == "\n";
  }

  /** The command that overwrites the configuration file with `json`. */
  function ApplyCommand(json: string): (cmd: string)
    ensures '\n' !in cmd
    ensures |cmd| == |EchoOpen| + |json| + multiset(json)['"'] + multiset(json)['\n'] + |EchoClose|
  {
    FixedPartsPlain();
    EchoOpen + Escape(json) + EchoClose
  }

  /** A double quote with no backslash right before it. */
  predicate BareQuote(t: string, i: int)
  {
    0 <= i < |t| && t[i] == '"' && (i == 0 || t[i - 1] != '\\')
  }

  /** In the command, the only quotes without a backslash before them are the
      one that opens the echoed text and the one that closes it; the opening
      one is always bare. */
  lemma OnlyDelimitersBare(json: string)
    ensures BareQuote(ApplyCommand(json), |EchoOpen| - 1)
    ensures forall i | BareQuote(ApplyCommand(json), i) ::
              i == |EchoOpen| - 1 || i == |ApplyCommand(json)| - |EchoClose|
  {
    QuotesAreEscaped(json);
    FixedPartsPlain();
  }
}
