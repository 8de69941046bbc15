/** Quoting for the shell, against how the shell reads words: sections 2.2.1 to 2.2.3 and 2.3 of the
    POSIX.1-2017 Shell Command Language. */
module ShellQuote {
  import opened Wrappers

  // ---------------------------------------------------------------- reading words

  /** Between words, or in one, of which `word` has been read: outside quotes, or inside of some. */
  datatype Mode = Between | Unquoted(word: string) | Single(word: string) | Double(word: string)

  predicate Blank(c: char) { c == ' ' || c == '\t' || c == '\n' }

  /** What means something else than itself to the shell, unless it is quoted. */
  predicate Special(c: char) { c in "|&;<>()$`*?[~" }

  function Prepend(word: string, words: Option<seq<string>>): Option<seq<string>> {
    if words.None? then None else Some([word] + words.value)
  }

  /** The words of a command, if it has nothing but words: no operators, expansions or comments, and no
      quotes left open. */
  function Words(s: string, mode: Mode): Option<seq<string>>
    decreases |s|, if mode.Between? then 1 else 0
  {
    match mode
    case Between =>
      if s == [] then Some([])
      else if Blank(s[0]) then Words(s[1..], Between)
      else if s[0] == '#' then None
      else Words(s, Unquoted(""))
    case Unquoted(word) =>
      if s == [] then Some([word])
      else if Blank(s[0]) then Prepend(word, Words(s[1..], Between))
      else if s[0] == '\'' then Words(s[1..], Single(word))
      else if s[0] == '"' then Words(s[1..], Double(word))
      else if s[0] == '\\' then
        if |s| == 1 then None
        else if s[1] == '\n' then Words(s[2..], Unquoted(word))
        else Words(s[2..], Unquoted(word + [s[1]]))
      else if Special(s[0]) then None
      else Words(s[1..], Unquoted(word + [s[0]]))
    case Single(word) =>
      if s == [] then None
      else if s[0] == '\'' then Words(s[1..], Unquoted(word))
      else Words(s[1..], Single(word + [s[0]]))
    case Double(word) =>
      if s == [] then None
      else if s[0] == '"' then Words(s[1..], Unquoted(word))
      else if s[0] == '$' || s[0] == '`' then None
      else if s[0] == '\\' && |s| > 1 && s[1] == '\n' then Words(s[2..], Double(word))
      else if s[0] == '\\' && |s| > 1 && s[1] in "$`\"\\" then Words(s[2..], Double(word + [s[1]]))
      else Words(s[1..], Double(word + [s[0]]))
  }

  // ---------------------------------------------------------------- quoting

  /** An apostrophe outside of the apostrophes, between quotation marks: '"'"' */
  const APOSTROPHE: string := "'\"'\"'"

  /** `strings.ReplaceAll` for the apostrophe */
  function Escaped(s: string): string {
    if s == [] then [] else (if s[0] == '\'' then APOSTROPHE else [s[0]]) + Escaped(s[1..])
  }

  /** `shellQuote` and `shellQuoteGraph` */
  function Quote(s: string): string { if s == "" then "''" else "'" + Escaped(s) + "'" }

  /** The characters of `shellSafeArgPattern` */
  predicate Safe(c: char) {
    'A' <= c <= 'Z' || 'a' <= c <= 'z' || '0' <= c <= '9' || c in "_./:@%+=,-"
  }

  /** `shellQuoteCommandArg` */
  function QuoteArg(s: string): string { if s != "" && (forall i :: 0 <= i < |s| ==> Safe(s[i])) then s else Quote(s) }

  /** `strings.Join` with a space */
  function Joined(words: seq<string>): string {
    if words == [] then "" else if |words| == 1 then words[0] else Joined(words[..|words| - 1]) + " " + words[|words| - 1]
  }

  function Each(args: seq<string>, quote: string -> string): (r: seq<string>)
    ensures |r| == |args| && forall i :: 0 <= i < |r| ==> r[i] == quote(args[i])
  {
    seq(|args|, i requires 0 <= i < |args| => quote(args[i]))
  }

  method ShellQuoteArgs(args: seq<string>) returns (out: seq<string>)
    ensures out == Each(args, Quote)
  {
    out := [];
    for i := 0 to |args|
      invariant out == Each(args[..i], Quote)
    {
      out := out + [Quote(args[i])];
      assert out == Each(args[..i + 1], Quote);
    }
    assert args[..|args|] == args;
  }

  method QuoteCommand(args: seq<string>) returns (command: string)
    ensures command == Joined(Each(args, QuoteArg))
  {
    var out: seq<string> := [];
    for i := 0 to |args|
      invariant out == Each(args[..i], QuoteArg)
    {
      out := out + [QuoteArg(args[i])];
      assert out == Each(args[..i + 1], QuoteArg);
    }
    assert args[..|args|] == args;
    command := Joined(out);
  }

  // ---------------------------------------------------------------- round trips

  /** Inside apostrophes, the escaped text up to the closing one is read back as the text. */
  lemma {:induction false} EscapedReads(s: string, word: string, rest: string)
    ensures Words(Escaped(s) + "'" + rest, Single(word)) == Words(rest, Unquoted(word + s))
  {
    if s == [] {
      assert ("'" + rest)[1..] == rest && word + s == word;
      assert Escaped(s) + "'" + rest == "'" + rest;
    } else {
      var tail := Escaped(s[1..]) + "'" + rest;
      EscapedReads(s[1..], word + [s[0]], rest);
      assert word + [s[0]] + s[1..] == word + s;
      if s[0] == '\'' {
        assert Escaped(s) + "'" + rest == APOSTROPHE + tail;
        ApostropheReads(word, tail);
      } else {
        assert Escaped(s) + "'" + rest == [s[0]] + tail;
        assert ([s[0]] + tail)[1..] == tail;
      }
    }
  }

  /** The five characters for an apostrophe close, quote one, and open again. */
  lemma ApostropheReads(word: string, tail: string)
    ensures Words(APOSTROPHE + tail, Single(word)) == Words(tail, Single(word + ['\'']))
  {
    var s := APOSTROPHE + tail;
    assert s[0] == '\'' && s[1..][0] == '"' && s[1..][1..] == s[2..] && s[2..][0] == '\'' && s[2..][1..] == s[3..];
    assert s[3..][0] == '"' && s[3..][1..] == s[4..] && s[4..][0] == '\'' && s[4..][1..] == s[5..] && s[5..] == tail;
    assert Words(s, Single(word)) == Words(s[1..], Unquoted(word)) == Words(s[2..], Double(word));
    assert Words(s[2..], Double(word)) == Words(s[3..], Double(word + ['\''])) == Words(s[4..], Unquoted(word + ['\'']));
  }

  /** The text reads as one word, whatever follows it. */
  ghost predicate ReadsAs(text: string, word: string) {
    && text != "" && !Blank(text[0]) && text[0] != '#'
    && forall rest :: Words(text + rest, Unquoted("")) == Words(rest, Unquoted(word))
  }

  lemma QuoteReads(s: string)
    ensures ReadsAs(Quote(s), s)
  {
    forall rest ensures Words(Quote(s) + rest, Unquoted("")) == Words(rest, Unquoted(s)) {
      EscapedReads(s, "", rest);
      assert "" + s == s;
      if s == "" {
        assert ("''" + rest)[1..] == "'" + rest;
        assert Escaped(s) + "'" + rest == "'" + rest;
      } else {
        assert Quote(s) + rest == "'" + (Escaped(s) + "'" + rest);
        assert ("'" + (Escaped(s) + "'" + rest))[1..] == Escaped(s) + "'" + rest;
      }
    }
  }

  lemma {:induction false} SafeReads(s: string, word: string, rest: string)
    requires forall i :: 0 <= i < |s| ==> Safe(s[i])
    ensures Words(s + rest, Unquoted(word)) == Words(rest, Unquoted(word + s))
  {
    if s == [] {
      assert s + rest == rest && word + s == word;
    } else {
      assert Safe(s[0]);
      assert (s + rest)[1..] == s[1..] + rest && word + [s[0]] + s[1..] == word + s;
      SafeReads(s[1..], word + [s[0]], rest);
    }
  }

  lemma QuoteArgReads(s: string)
    ensures ReadsAs(QuoteArg(s), s)
  {
    if QuoteArg(s) == s && s != "" && (forall i :: 0 <= i < |s| ==> Safe(s[i])) {
      assert Safe(s[0]);
      forall rest ensures Words(s + rest, Unquoted("")) == Words(rest, Unquoted(s)) {
        SafeReads(s, "", rest);
        assert "" + s == s;
      }
    } else {
      QuoteReads(s);
    }
  }

  /** Texts that read as words, joined by spaces, read as those words; what follows is read on. */
  lemma {:induction false} JoinedReads(texts: seq<string>, words: seq<string>, rest: string)
    requires |texts| == |words| > 0 && forall i :: 0 <= i < |texts| ==> ReadsAs(texts[i], words[i])
    requires rest == "" || Blank(rest[0])
    ensures Words(Joined(texts) + rest, Between)
         == if Words(rest, Between).None? then None else Some(words + Words(rest, Between).value)
  {
    var n := |texts| - 1;
    var last := texts[n] + rest;
    assert ReadsAs(texts[n], words[n]);
    assert last[0] == texts[n][0];
    assert Words(last, Between) == Words(last, Unquoted("")) == Words(rest, Unquoted(words[n]));
    assert Words(last, Between) == Prepend(words[n], Words(rest, Between)) by {
      if rest != "" { assert Words(rest, Between) == Words(rest[1..], Between); }
      assert [words[n]] + [] == [words[n]];
    }
    if n == 0 {
      assert words == [words[0]];
    } else {
      var more := " " + last;
      assert Joined(texts) + rest == Joined(texts[..n]) + more;
      assert more[0] == ' ' && more[1..] == last;
      JoinedReads(texts[..n], words[..n], more);
      assert Words(more, Between) == Words(last, Between);
      if Words(rest, Between).Some? {
        assert words[..n] + ([words[n]] + Words(rest, Between).value) == words + Words(rest, Between).value;
      }
    }
  }

  lemma RoundTrip(args: seq<string>, quote: string -> string)
    requires forall s :: ReadsAs(quote(s), s)
    ensures Words(Joined(Each(args, quote)), Between) == Some(args)
  {
    if args != [] {
      JoinedReads(Each(args, quote), args, "");
      assert Joined(Each(args, quote)) + "" == Joined(Each(args, quote));
      assert args + [] == args;
    }
  }

  /** For any arguments, the space-joined quotations read back as exactly those arguments. */
  lemma ShellQuoteRoundTrip(args: seq<string>)
    ensures Words(Joined(Each(args, Quote)), Between) == Some(args)
  {
    forall s ensures ReadsAs(Quote(s), s) { QuoteReads(s); }
    RoundTrip(args, Quote);
  }

  /** And so do they when safe words are left bare. */
  lemma QuoteCommandRoundTrip(args: seq<string>)
    ensures Words(Joined(Each(args, QuoteArg)), Between) == Some(args)
  {
    forall s ensures ReadsAs(QuoteArg(s), s) { QuoteArgReads(s); }
    RoundTrip(args, QuoteArg);
  }

  /** Different arguments make different commands. */
  lemma CommandsAreDistinct(args: seq<string>, others: seq<string>)
    requires Joined(Each(args, QuoteArg)) == Joined(Each(others, QuoteArg))
    ensures args == others
  {
    QuoteCommandRoundTrip(args);
    QuoteCommandRoundTrip(others);
  }
}
