/**
 The command tail of an ssh argument vector: words quoted so that the login
 shell, which receives them joined by spaces, reads exactly those words back.
 */
module ShellQuote {
  import opened Wrappers

  // ---------------------------------------------------------------------
  // The source: quoting

  /** Every single quote closes the quotes, stands escaped, and reopens them. */
  function Escaped(value: string): string {
    if value == "" then ""
    else (if value[0] == '\'' then "'\\''" else [value[0]]) + Escaped(value[1..])
  }

  function SingleQuote(value: string): string {
    "'" + Escaped(value) + "'"
  }

  predicate Homed(path: string) {
    |path| >= 2 && path[0] == '~' && path[1] == '/'
  }

  /** A leading `~/` stays outside the quotes, for the shell to expand. */
  function QuoteRemotePath(path: string): string {
    if Homed(path) then "~/" + SingleQuote(path[2..]) else SingleQuote(path)
  }

  function QuoteArguments(arguments: seq<string>): seq<string> {
    seq(|arguments|, i requires 0 <= i < |arguments| => SingleQuote(arguments[i]))
  }

  /** The quoted words, or nothing when there is no command or its path is empty. */
  function CommandTail(command: seq<string>): Option<seq<string>> {
    if command == [] || command[0] == "" then None
    else Some([QuoteRemotePath(command[0])] + QuoteArguments(command[1..]))
  }

  /** What ssh sends: the words with single spaces between them. */
  function JoinWords(words: seq<string>): string {
    if words == [] then ""
    else if |words| == 1 then words[0]
    else words[0] + " " + JoinWords(words[1..])
  }

  // ---------------------------------------------------------------------
  // The reference: how a POSIX shell reads words
  // (sections 2.2.1, 2.2.2, 2.3 and 2.6.7 of the POSIX.1-2017 Shell Command Language)

  /** A character of a word, and whether it was quoted. */
  datatype Piece = Bare(c: char) | Quoted(c: char)

  type Word = seq<Piece>

  /** Characters that mean something else when they are not quoted: operators, expansions, comments, patterns. */
  predicate Special(c: char) {
    c in "|&;<>()$`\"*?[#\n"
  }

  predicate Separator(c: char) {
    c == ' ' || c == '\t'
  }

  function Begun(word: Option<Word>): Word {
    if word.Some? then word.value else []
  }

  function Ended(word: Option<Word>): seq<Word> {
    if word.Some? then [word.value] else []
  }

  function Before(words: seq<Word>, rest: Option<seq<Word>>): Option<seq<Word>> {
    if rest.None? then None else Some(words + rest.value)
  }

  /**
   The words of a line, from a point where `word` has begun and quotes may be
   open. `None` when the line needs more than words and quotes to read.
   */
  function ReadWords(line: string, word: Option<Word>, quoted: bool): Option<seq<Word>>
    decreases |line|
  {
    if line == "" then (if quoted then None else Some(Ended(word)))
    else
      var c, rest := line[0], line[1..];
      if quoted then
        if c == '\'' then ReadWords(rest, word, false)
        else ReadWords(rest, Some(Begun(word) + [Quoted(c)]), true)
      else if c == '\'' then ReadWords(rest, Some(Begun(word)), true)
      else if Separator(c) then Before(Ended(word), ReadWords(rest, None, false))
      else if c == '\\' then
        if rest == "" then None
        else if rest[0] == '\n' then ReadWords(rest[1..], word, false)
        else ReadWords(rest[1..], Some(Begun(word) + [Quoted(rest[0])]), false)
      else if Special(c) then None
      else ReadWords(rest, Some(Begun(word) + [Bare(c)]), false)
  }

  /** Quote removal: what the program is given. */
  function Text(word: Word): string {
    seq(|word|, i requires 0 <= i < |word| => word[i].c)
  }

  // ---------------------------------------------------------------------
  // Reading back what was quoted

  function AllQuoted(value: string): Word {
    seq(|value|, i requires 0 <= i < |value| => Quoted(value[i]))
  }

  /** The word a path should be read as: its `~/` bare, everything else quoted. */
  function PathWord(path: string): Word {
    if Homed(path) then [Bare('~'), Bare('/')] + AllQuoted(path[2..]) else AllQuoted(path)
  }

  function ArgumentWords(arguments: seq<string>): seq<Word> {
    seq(|arguments|, i requires 0 <= i < |arguments| => AllQuoted(arguments[i]))
  }

  lemma CloseReads(rest: string, word: Word)
    ensures ReadWords("'" + rest, Some(word), true) == ReadWords(rest, Some(word), false)
  {
    assert ("'" + rest)[1..] == rest;
  }

  lemma PlainReads(c: char, rest: string, word: Word)
    requires c != '\''
    ensures ReadWords([c] + rest, Some(word), true) == ReadWords(rest, Some(word + [Quoted(c)]), true)
  {
    assert ([c] + rest)[1..] == rest;
  }

  lemma {:induction false} ReadsEscaped(value: string, rest: string, word: Word)
    ensures ReadWords(Escaped(value) + "'" + rest, Some(word), true) == ReadWords(rest, Some(word + AllQuoted(value)), false)
    decreases |value|
  {
    hide ReadWords;
    var line := Escaped(value) + "'" + rest;
    if value == "" {
      CloseReads(rest, word);
      assert line == "'" + rest && word + AllQuoted(value) == word;
    } else {
      var c := value[0];
      var after := Escaped(value[1..]) + "'" + rest;
      ReadsEscaped(value[1..], rest, word + [Quoted(c)]);
      assert word + AllQuoted(value) == word + [Quoted(c)] + AllQuoted(value[1..]);
      if c == '\'' {
        QuoteReads(after, word);
        assert line == "'\\''" + after;
      } else {
        PlainReads(c, after, word);
        assert line == [c] + after;
      }
    }
  }

  /** Closing, an escaped quote, and reopening read as one quoted quote. */
  lemma QuoteReads(after: string, word: Word)
    ensures ReadWords("'\\''" + after, Some(word), true) == ReadWords(after, Some(word + [Quoted('\'')]), true)
  {
    var line := "'\\''" + after;
    var l1 := "\\''" + after;
    var l3 := "'" + after;
    assert line[0] == '\'' && line[1..] == l1;
    assert l1[0] == '\\' && l1[1..][0] == '\'' && l1[1..][1..] == l3;
    assert l3[0] == '\'' && l3[1..] == after;
    assert ReadWords(l3, Some(word + [Quoted('\'')]), false) == ReadWords(after, Some(word + [Quoted('\'')]), true);
    assert ReadWords(l1, Some(word), false) == ReadWords(l3, Some(word + [Quoted('\'')]), false);
  }

  /** A quoted value, after whatever began the word, adds the value to it, all quoted. */
  lemma ReadsQuoted(value: string, rest: string, word: Option<Word>)
    ensures ReadWords(SingleQuote(value) + rest, word, false) == ReadWords(rest, Some(Begun(word) + AllQuoted(value)), false)
  {
    var line := SingleQuote(value) + rest;
    assert line[0] == '\'' && line[1..] == Escaped(value) + "'" + rest;
    ReadsEscaped(value, rest, Begun(word));
  }

  lemma ReadsPath(path: string, rest: string)
    ensures ReadWords(QuoteRemotePath(path) + rest, None, false) == ReadWords(rest, Some(PathWord(path)), false)
  {
    hide ReadWords;
    if Homed(path) {
      var quoted := SingleQuote(path[2..]);
      TildeReads(quoted + rest);
      ReadsQuoted(path[2..], rest, Some([Bare('~'), Bare('/')]));
      assert QuoteRemotePath(path) + rest == "~/" + (quoted + rest);
    } else {
      ReadsQuoted(path, rest, None);
      assert [] + AllQuoted(path) == AllQuoted(path);
    }
  }

  lemma TildeReads(after: string)
    ensures ReadWords("~/" + after, None, false) == ReadWords(after, Some([Bare('~'), Bare('/')]), false)
  {
    var line, next := "~/" + after, "/" + after;
    assert line[1..] == next && next[1..] == after;
    assert [] + [Bare('~')] == [Bare('~')];
    assert ReadWords(line, None, false) == ReadWords(next, Some([Bare('~')]), false);
    assert [Bare('~')] + [Bare('/')] == [Bare('~'), Bare('/')];
  }

  /** The words after the first, each behind its space. */
  lemma {:induction false} ReadsArguments(arguments: seq<string>, word: Word)
    requires arguments != []
    ensures ReadWords(" " + JoinWords(QuoteArguments(arguments)), Some(word), false) == Some([word] + ArgumentWords(arguments))
    decreases |arguments|
  {
    var quoted := QuoteArguments(arguments);
    var rest := if |arguments| == 1 then "" else " " + JoinWords(QuoteArguments(arguments[1..]));
    var line := " " + JoinWords(quoted);
    assert quoted[1..] == QuoteArguments(arguments[1..]);
    assert JoinWords(quoted) == SingleQuote(arguments[0]) + rest;
    assert line[0] == ' ' && line[1..] == SingleQuote(arguments[0]) + rest;
    ReadsQuoted(arguments[0], rest, None);
    var first := AllQuoted(arguments[0]);
    assert [] + first == first;
    if |arguments| > 1 {
      ReadsArguments(arguments[1..], first);
      assert ArgumentWords(arguments) == [first] + ArgumentWords(arguments[1..]);
    } else {
      assert ArgumentWords(arguments) == [first];
    }
  }

  /**
   For every command ssh is given, the login shell reads exactly the words of
   the command: empty ones, quotes, operators and all. Nothing is left bare but
   the `~/` a path begins with.
   */
  lemma ShellReadsCommand(command: seq<string>)
    requires command != [] && command[0] != ""
    ensures CommandTail(command).Some?
    ensures ReadWords(JoinWords(CommandTail(command).value), None, false)
         == Some([PathWord(command[0])] + ArgumentWords(command[1..]))
    ensures forall i :: 0 <= i < |command| ==> Text(([PathWord(command[0])] + ArgumentWords(command[1..]))[i]) == command[i]
  {
    var tail := CommandTail(command).value;
    var rest := if |command| == 1 then "" else " " + JoinWords(QuoteArguments(command[1..]));
    assert tail[1..] == QuoteArguments(command[1..]);
    assert JoinWords(tail) == QuoteRemotePath(command[0]) + rest;
    ReadsPath(command[0], rest);
    if |command| > 1 {
      ReadsArguments(command[1..], PathWord(command[0]));
    } else {
      assert [PathWord(command[0])] + ArgumentWords(command[1..]) == [PathWord(command[0])];
    }
    forall i | 0 <= i < |command|
      ensures Text(([PathWord(command[0])] + ArgumentWords(command[1..]))[i]) == command[i]
    {
      WordsAreTheCommand(command, i);
    }
  }

  /** Only a command without a path is refused. */
  lemma RefusedWithoutPath(command: seq<string>)
    ensures CommandTail(command).None? <==> |command| == 0 || command[0] == ""
  {
  }

  /** Those words, with their quotes removed, are the command; their bare characters are the path's `~/` and no others. */
  lemma WordsAreTheCommand(command: seq<string>, i: nat)
    requires i < |command|
    ensures var word := if i == 0 then PathWord(command[0]) else ArgumentWords(command[1..])[i - 1];
            && Text(word) == command[i]
            && forall k :: 0 <= k < |word| && word[k].Bare? ==> i == 0 && Homed(command[0]) && k < 2
  {
  }
}
