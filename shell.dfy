/**
 * How a POSIX shell splits a command line into the argument vector the
 * program receives, restricted to what the formatters below produce: blanks
 * separate words, an unquoted newline ends the command (what follows it is
 * a further command), a backslash-newline pair is a line continuation and
 * vanishes, a backslash escapes the next character, and single quotes keep
 * everything up to the closing quote literally. The command line built by
 * the interfaces is run through a shell, so this is the reading against
 * which the formatted blocks are checked.
 */
module Shell {
  import opened Text

  /** A blank between two words of one command. */
  predicate Blank(c: char)
  {
    c == ' ' || c == '\t'
  }

  /** A character that ends an unquoted word: a blank, or the newline that
      ends the command. */
  predicate Separator(c: char)
  {
    Blank(c) || c == '\n'
  }

  /** A character that reaches the program unchanged when written unquoted:
      neither a separator nor one the shell gives a meaning to. */
  predicate PlainChar(c: char)
  {
    && !Separator(c)
    && c != '\'' && c != '"' && c != '\\' && c != '|' && c != '&' && c != ';'
    && c != '<' && c != '>' && c != '(' && c != ')' && c != '$' && c != '`'
    && c != '*' && c != '?' && c != '[' && c != ']' && c != '#' && c != '~'
    && c != '{' && c != '}' && c != '!'
  }

  /** A non-empty word the shell passes on as it is written. */
  predicate PlainWord(w: string)
  {
    |w| > 0 && forall i :: 0 <= i < |w| ==> PlainChar(w[i])
  }

  /** The first index at or after i holding a single quote, or |s| if none. */
  function QuoteEnd(s: string, i: nat): (j: nat)
    requires i <= |s|
    ensures i <= j <= |s|
    ensures j < |s| ==> s[j] == '\''
    ensures forall k :: i <= k < j ==> s[k] != '\''
    decreases |s| - i
  {
    if i == |s| || s[i] == '\'' then i else QuoteEnd(s, i + 1)
  }

  /** Reads the word at the front of s, up to the first unquoted separator.
      Returns the word's text after quote removal and the rest of s, which
      is empty or starts with that separator. */
  function ReadWord(s: string): (r: (string, string))
    ensures |r.1| <= |s|
    ensures s != [] && !Separator(s[0]) ==> |r.1| < |s|
    ensures r.1 == [] || Separator(r.1[0])
    decreases |s|
  {
    if s == [] || Separator(s[0]) then ("", s)
    else if s[0] == '\'' then
      var close := QuoteEnd(s, 1);
      var next := ReadWord(if close < |s| then s[close + 1..] else []);
      (s[1..close] + next.0, next.1)
    else if s[0] == '\\' && |s| > 1 then
      if s[1] == '\n' then ReadWord(s[2..])
      else
        var next := ReadWord(s[2..]);
        ([s[1]] + next.0, next.1)
    else
      var next := ReadWord(s[1..]);
      ([s[0]] + next.0, next.1)
  }

  /** The argument vector of the command a command line starts with: its
      words up to the end of the text or the first unquoted newline. */
  function Words(s: string): seq<string>
    decreases |s|
  {
    if s == [] then []
    else if Blank(s[0]) then Words(s[1..])
    else if s[0] == '\n' then []
    else if |s| > 1 && s[0] == '\\' && s[1] == '\n' then Words(s[2..])
    else
      var r := ReadWord(s);
      [r.0] + Words(r.1)
  }

  lemma {:induction false} ReadPlain(w: string, t: string)
    requires forall i :: 0 <= i < |w| ==> PlainChar(w[i])
    requires t == [] || Separator(t[0])
    ensures ReadWord(w + t) == (w, t)
    decreases |w|
  {
    if w == [] {
      assert w + t == t;
    } else {
      assert (w + t)[1..] == w[1..] + t;
      ReadPlain(w[1..], t);
      assert [w[0]] + w[1..] == w;
    }
  }

  lemma {:induction false} ReadQuoted(m: string, t: string)
    requires '\'' !in m
    requires t == [] || Separator(t[0])
    ensures ReadWord("'" + m + "'" + t) == (m, t)
  {
    var s := "'" + m + "'" + t;
    var close := QuoteEnd(s, 1);
    assert s[|m| + 1] == '\'';
    assert forall k :: 1 <= k < |m| + 1 ==> s[k] == m[k - 1];
    assert close == |m| + 1;
    assert s[1..close] == m;
    assert s[close + 1..] == t;
    assert ReadWord(t) == ("", t);
    assert s[0] == '\'' && !Separator(s[0]);
    assert m + "" == m;
  }

  /** Plain characters in front of anything join the word read after them. */
  lemma {:induction false} ReadPrefix(w: string, s: string)
    requires forall i :: 0 <= i < |w| ==> PlainChar(w[i])
    ensures ReadWord(w + s) == (w + ReadWord(s).0, ReadWord(s).1)
    decreases |w|
  {
    if w == [] {
      assert w + s == s;
      assert w + ReadWord(s).0 == ReadWord(s).0;
    } else {
      assert (w + s)[1..] == w[1..] + s;
      ReadPrefix(w[1..], s);
      assert [w[0]] + (w[1..] + ReadWord(s).0) == w + ReadWord(s).0;
    }
  }

  /** Quoted text in front of anything joins, without its quotes, the word
      read after it. */
  lemma ReadQuotedPrefix(m: string, s: string)
    requires '\'' !in m
    ensures ReadWord("'" + m + "'" + s) == (m + ReadWord(s).0, ReadWord(s).1)
  {
    var q := "'" + m + "'" + s;
    var close := QuoteEnd(q, 1);
    assert q[|m| + 1] == '\'';
    assert forall k :: 1 <= k < |m| + 1 ==> q[k] == m[k - 1];
    assert close == |m| + 1;
    assert q[1..close] == m;
    assert q[close + 1..] == s;
  }

  /** A plain word, quoted text and a plain word written together, then a
      space: the shell passes them on as one argument, the quotes removed. */
  lemma GluedWord(f: string, m: string, g: string, t: string)
    requires PlainWord(f) && '\'' !in m && PlainWord(g)
    ensures Words(f + ("'" + m + "'" + (g + (" " + t)))) == [f + m + g] + Words(t)
  {
    var q := "'" + m + "'" + (g + (" " + t));
    ReadPlain(g, " " + t);
    ReadQuotedPrefix(m, g + (" " + t));
    ReadPrefix(f, q);
    assert f + (m + g) == f + m + g;
    assert (f + q)[0] == f[0];
    WordsBlank(t);
  }

  /** A plain word followed by a separator (or the end) is passed on as one
      argument, exactly as written. */
  lemma WordsPlain(w: string, t: string)
    requires PlainWord(w)
    requires t == [] || Separator(t[0])
    ensures Words(w + t) == [w] + Words(t)
  {
    ReadPlain(w, t);
    assert (w + t)[0] == w[0];
  }

  /** Single-quoted text free of single quotes, followed by a separator (or
      the end), is passed on as one argument: the text between the quotes. */
  lemma WordsQuoted(m: string, t: string)
    requires '\'' !in m
    requires t == [] || Separator(t[0])
    ensures Words("'" + m + "'" + t) == [m] + Words(t)
  {
    ReadQuoted(m, t);
  }

  lemma WordsBlank(t: string)
    ensures Words(" " + t) == Words(t)
  {
    assert (" " + t)[1..] == t;
  }

  /** An unquoted newline ends the command: nothing after it reaches the
      program. */
  lemma WordsNewline(t: string)
    ensures Words("\n" + t) == []
  {
  }

  lemma WordsContinuation(t: string)
    ensures Words("\\\n" + t) == Words(t)
  {
    assert ("\\\n" + t)[2..] == t;
  }

  /** A plain word, a space, then anything: the word is one argument. */
  lemma WordThen(w: string, t: string)
    requires PlainWord(w)
    ensures Words(w + (" " + t)) == [w] + Words(t)
  {
    WordsPlain(w, " " + t);
    WordsBlank(t);
  }

  /** Quoted text, a space, then anything: the text is one argument. */
  lemma QuotedThen(m: string, t: string)
    requires '\'' !in m
    ensures Words("'" + m + "'" + (" " + t)) == [m] + Words(t)
  {
    WordsQuoted(m, " " + t);
    WordsBlank(t);
  }

  function Flatten(xss: seq<seq<string>>): seq<string>
  {
    if xss == [] then [] else xss[0] + Flatten(xss[1..])
  }

  /** Pieces that the shell reads each as its own arguments, whatever
      follows them, joined by single spaces: the shell reads all their
      arguments, piece by piece in order. */
  lemma {:induction false} JoinedWords(pieces: seq<string>, args: seq<seq<string>>)
    requires |pieces| == |args|
    requires forall k, t :: 0 <= k < |pieces| ==> Words(pieces[k] + t) == args[k] + Words(t)
    ensures Words(Join(" ", pieces)) == Flatten(args)
  {
    if |pieces| == 1 {
      assert pieces[0] + "" == pieces[0];
      assert Words(pieces[0] + "") == args[0] + Words("");
      assert Flatten(args) == args[0] + Flatten([]);
    } else if |pieces| > 1 {
      var rest := Join(" ", pieces[1..]);
      JoinedWords(pieces[1..], args[1..]);
      assert Words(pieces[0] + (" " + rest)) == args[0] + Words(" " + rest);
      WordsBlank(rest);
      assert Join(" ", pieces) == pieces[0] + (" " + rest);
    }
  }

  /** A decimal numeral is one plain word. */
  lemma DecimalPlain(n: int)
    ensures PlainWord(Decimal(n))
  {
  }

  /** The option names the interfaces write are plain words. */
  lemma FlagsPlain()
    ensures PlainWord("-num_stimts") && PlainWord("-stim_times") && PlainWord("-stim_label")
    ensures PlainWord("-gltsym") && PlainWord("-stim_files") && PlainWord("-labels")
  {
  }
}
