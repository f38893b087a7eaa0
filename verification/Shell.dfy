/** Quoting an argument for a POSIX shell, and the shell's way of reading it back:
    sections 2.2 (Quoting) and 2.6.7 (Quote Removal) of the Shell Command Language,
    POSIX.1-2017. */
module Shell {
  import opened Items

  // ---------------------------------------------------------------- printing

  predicate IsSafe(c: char) {
    'a' <= c <= 'z' || 'A' <= c <= 'Z' || '0' <= c <= '9' || c in "_@%+=:,./-"
  }

  /** Every single quote becomes a closing quote, a quoted quote and an opening quote. */
  function Escaped(s: string): string {
    if s == "" then "" else (if s[0] == '\'' then "'\"'\"'" else [s[0]]) + Escaped(s[1..])
  }

  function ShellArgument(argument: string): string {
    if argument != "" && forall i :: 0 <= i < |argument| ==> IsSafe(argument[i]) then argument
    else "'" + Escaped(argument) + "'"
  }

  /** Arguments one after the other, separated by spaces. */
  function CommandLine(arguments: seq<string>): string {
    if arguments == [] then ""
    else if |arguments| == 1 then ShellArgument(arguments[0])
    else ShellArgument(arguments[0]) + (" " + CommandLine(arguments[1..]))
  }

  // ---------------------------------------------------------------- reading

  datatype Mode = Plain | Single | Double

  predicate IsBlank(c: char) {
    c == ' ' || c == '\t'
  }

  /** Characters that end a word or start an expansion when they are not quoted, and
      those that are special at some places of a word. */
  predicate IsSpecial(c: char) {
    c in "|&;<>()$`\n*?[#~"
  }

  function Started(word: Option<string>): string {
    if word.Some? then word.value else ""
  }

  /** Splits text into words and removes the quotes. `word` is the word being read.
      `None`: an open quote, or text that is more than literal words. */
  function Lex(s: string, mode: Mode, word: Option<string>, words: seq<string>): Option<seq<string>>
    decreases |s|
  {
    if s == "" then
      if !mode.Plain? then None else Some(if word.Some? then words + [word.value] else words)
    else if s[0] == '\0' then None
    else match mode
      case Plain =>
        if IsBlank(s[0]) then Lex(s[1..], Plain, None, if word.Some? then words + [word.value] else words)
        else if s[0] == '\'' then Lex(s[1..], Single, Some(Started(word)), words)
        else if s[0] == '"' then Lex(s[1..], Double, Some(Started(word)), words)
        else if s[0] == '\\' then
          if |s| == 1 || s[1] == '\0' then None
          else if s[1] == '\n' then Lex(s[2..], Plain, word, words)
          else Lex(s[2..], Plain, Some(Started(word) + [s[1]]), words)
        else if IsSpecial(s[0]) then None
        else Lex(s[1..], Plain, Some(Started(word) + [s[0]]), words)
      case Single =>
        if s[0] == '\'' then Lex(s[1..], Plain, word, words)
        else Lex(s[1..], Single, Some(Started(word) + [s[0]]), words)
      case Double =>
        if s[0] == '"' then Lex(s[1..], Plain, word, words)
        else if s[0] == '$' || s[0] == '`' then None
        else if s[0] == '\\' && |s| > 1 && s[1] in "$`\"\\"
             then Lex(s[2..], Double, Some(Started(word) + [s[1]]), words)
        else if s[0] == '\\' && |s| > 1 && s[1] == '\n' then Lex(s[2..], Double, word, words)
        else Lex(s[1..], Double, Some(Started(word) + [s[0]]), words)
  }

  function Words(s: string): Option<seq<string>> {
    Lex(s, Plain, None, [])
  }

  // ---------------------------------------------------------------- round trip

  predicate NulFree(s: string) {
    '\0' !in s
  }

  /** Five characters for one: the quote leaves the single quotes and comes back. */
  lemma QuoteReads(rest: string, word: string, words: seq<string>)
    ensures Lex("'\"'\"'" + rest, Single, Some(word), words) == Lex(rest, Single, Some(word + "'"), words)
  {
    var q := "'\"'\"'" + rest;
    assert q[1..] == "\"'\"'" + rest;
    assert q[1..][1..] == "'\"'" + rest;
    assert q[1..][1..][1..] == "\"'" + rest;
    assert q[1..][1..][1..][1..] == "'" + rest;
    assert q[1..][1..][1..][1..][1..] == rest;
    calc {
      Lex(q, Single, Some(word), words);
      Lex("\"'\"'" + rest, Plain, Some(word), words);
      Lex("'\"'" + rest, Double, Some(word), words);
      Lex("\"'" + rest, Double, Some(word + "'"), words);
      Lex("'" + rest, Plain, Some(word + "'"), words);
      Lex(rest, Single, Some(word + "'"), words);
    }
  }

  lemma QuotedStep(c: char, rest: string, word: string, words: seq<string>)
    requires c != '\''
    ensures Lex([c] + rest, Single, Some(word), words)
         == if c == '\0' then None else Lex(rest, Single, Some(word + [c]), words)
  {
    assert ([c] + rest)[1..] == rest;
  }

  lemma QuoteEnds(rest: string, word: string, words: seq<string>)
    ensures Lex("'" + rest, Single, Some(word), words) == Lex(rest, Plain, Some(word), words)
  {
    assert ("'" + rest)[1..] == rest;
  }

  lemma {:induction false} EscapedReads(s: string, rest: string, word: string, words: seq<string>)
    ensures Lex(Escaped(s) + ("'" + rest), Single, Some(word), words)
         == if NulFree(s) then Lex(rest, Plain, Some(word + s), words) else None
  {
    if s == "" {
      assert Escaped(s) + ("'" + rest) == "'" + rest && word + s == word;
      QuoteEnds(rest, word, words);
    } else {
      var tail := Escaped(s[1..]) + ("'" + rest);
      assert s == [s[0]] + s[1..];
      assert word + s == (word + [s[0]]) + s[1..];
      EscapedReads(s[1..], rest, word + [s[0]], words);
      if s[0] == '\'' {
        assert Escaped(s) + ("'" + rest) == "'\"'\"'" + tail;
        QuoteReads(tail, word, words);
      } else {
        assert Escaped(s) + ("'" + rest) == [s[0]] + tail;
        QuotedStep(s[0], tail, word, words);
      }
    }
  }

  lemma SafeIsPlain(c: char)
    requires IsSafe(c)
    ensures !IsBlank(c) && !IsSpecial(c) && c != '\0' && c != '\'' && c != '"' && c != '\\'
  {
  }

  lemma SafeStep(c: char, rest: string, word: Option<string>, words: seq<string>)
    requires IsSafe(c)
    ensures Lex([c] + rest, Plain, word, words) == Lex(rest, Plain, Some(Started(word) + [c]), words)
  {
    SafeIsPlain(c);
    assert ([c] + rest)[1..] == rest;
  }

  lemma {:induction false} SafeReads(s: string, rest: string, word: string, words: seq<string>)
    requires forall i :: 0 <= i < |s| ==> IsSafe(s[i])
    ensures Lex(s + rest, Plain, Some(word), words) == Lex(rest, Plain, Some(word + s), words)
  {
    if s == "" {
      assert s + rest == rest && word + s == word;
    } else {
      assert s + rest == [s[0]] + (s[1..] + rest);
      SafeStep(s[0], s[1..] + rest, Some(word), words);
      SafeReads(s[1..], rest, word + [s[0]], words);
      assert word + s == (word + [s[0]]) + s[1..];
    }
  }

  lemma SafeIsNulFree(s: string)
    requires forall i :: 0 <= i < |s| ==> IsSafe(s[i])
    ensures NulFree(s)
  {
    forall i | 0 <= i < |s| ensures s[i] != '\0' { SafeIsPlain(s[i]); }
  }

  lemma SafeArgumentReads(argument: string, rest: string, words: seq<string>)
    requires argument != "" && forall i :: 0 <= i < |argument| ==> IsSafe(argument[i])
    ensures Lex(argument + rest, Plain, None, words) == Lex(rest, Plain, Some(argument), words)
  {
    assert argument + rest == [argument[0]] + (argument[1..] + rest);
    SafeStep(argument[0], argument[1..] + rest, None, words);
    SafeReads(argument[1..], rest, [argument[0]], words);
    assert [argument[0]] + argument[1..] == argument;
    assert "" + [argument[0]] == [argument[0]];
  }

  lemma QuoteBegins(rest: string, words: seq<string>)
    ensures Lex("'" + rest, Plain, None, words) == Lex(rest, Single, Some(""), words)
  {
    assert ("'" + rest)[1..] == rest;
  }

  lemma QuotedArgumentReads(argument: string, rest: string, words: seq<string>)
    ensures Lex("'" + Escaped(argument) + "'" + rest, Plain, None, words)
         == if NulFree(argument) then Lex(rest, Plain, Some(argument), words) else None
  {
    assert "'" + Escaped(argument) + "'" + rest == "'" + (Escaped(argument) + ("'" + rest));
    QuoteBegins(Escaped(argument) + ("'" + rest), words);
    EscapedReads(argument, rest, "", words);
    assert "" + argument == argument;
  }

  /** A printed argument reads as one word, the argument itself. */
  lemma ArgumentReads(argument: string, rest: string, words: seq<string>)
    ensures Lex(ShellArgument(argument) + rest, Plain, None, words)
         == if NulFree(argument) then Lex(rest, Plain, Some(argument), words) else None
  {
    if argument != "" && forall i :: 0 <= i < |argument| ==> IsSafe(argument[i]) {
      SafeIsNulFree(argument);
      SafeArgumentReads(argument, rest, words);
    } else {
      QuotedArgumentReads(argument, rest, words);
    }
  }

  predicate AllNulFree(arguments: seq<string>) {
    forall i :: 0 <= i < |arguments| ==> NulFree(arguments[i])
  }

  lemma AllNulFreeSplits(arguments: seq<string>)
    requires arguments != []
    ensures AllNulFree(arguments) <==> NulFree(arguments[0]) && AllNulFree(arguments[1..])
  {
    assert forall i :: 1 <= i < |arguments| ==> arguments[i] == arguments[1..][i - 1];
  }

  lemma SpaceReads(rest: string, word: string, words: seq<string>)
    ensures Lex(" " + rest, Plain, Some(word), words) == Lex(rest, Plain, None, words + [word])
  {
    assert (" " + rest)[1..] == rest;
  }

  /** A printed argument followed by more of the line. */
  lemma NextArgumentReads(first: string, rest: string, words: seq<string>)
    ensures Lex(ShellArgument(first) + (" " + rest), Plain, None, words)
         == if NulFree(first) then Lex(rest, Plain, None, words + [first]) else None
  {
    ArgumentReads(first, " " + rest, words);
    SpaceReads(rest, first, words);
  }

  lemma LastArgumentReads(last: string, words: seq<string>)
    ensures Lex(ShellArgument(last), Plain, None, words) == if NulFree(last) then Some(words + [last]) else None
  {
    ArgumentReads(last, "", words);
    assert ShellArgument(last) + "" == ShellArgument(last);
  }

  ghost predicate Reads(line: string, arguments: seq<string>, words: seq<string>) {
    Lex(line, Plain, None, words) == if AllNulFree(arguments) then Some(words + arguments) else None
  }

  lemma ReadsNone(words: seq<string>)
    ensures Reads("", [], words)
  {
    assert words + [] == words;
  }

  lemma ReadsOne(argument: string, words: seq<string>)
    ensures Reads(ShellArgument(argument), [argument], words)
  {
    LastArgumentReads(argument, words);
    assert AllNulFree([argument]) <==> NulFree(argument) by { assert [argument][0] == argument; }
  }

  lemma ReadsMore(first: string, more: seq<string>, line: string, words: seq<string>)
    requires Reads(line, more, words + [first])
    ensures Reads(ShellArgument(first) + (" " + line), [first] + more, words)
  {
    NextArgumentReads(first, line, words);
    AllNulFreeSplits([first] + more);
    assert ([first] + more)[1..] == more;
    assert words + ([first] + more) == words + [first] + more;
  }

  /** Printing loses nothing: for every list of arguments, the shell reads the printed
      line back as exactly these arguments if none of them holds a NUL, and cannot read
      it otherwise. */
  lemma {:induction false} CommandLineReads(arguments: seq<string>, words: seq<string>)
    ensures Reads(CommandLine(arguments), arguments, words)
  {
    if arguments == [] {
      ReadsNone(words);
    } else if |arguments| == 1 {
      ReadsOne(arguments[0], words);
      assert arguments == [arguments[0]];
    } else {
      CommandLineReads(arguments[1..], words + [arguments[0]]);
      ReadsMore(arguments[0], arguments[1..], CommandLine(arguments[1..]), words);
      assert arguments == [arguments[0]] + arguments[1..];
    }
  }

  /** One argument, as the setup hints print it. */
  lemma QuotingRoundTrips(argument: string)
    ensures Words(ShellArgument(argument)) == if NulFree(argument) then Some([argument]) else None
  {
    LastArgumentReads(argument, []);
    assert [] + [argument] == [argument];
  }
}
