/** Shell quoting of the Runner command (packages/box-executor/src/bootstrap.ts), against a reading of the
    POSIX.1-2017 Shell Command Language: token recognition (section 2.3), quoting (sections 2.2.1 to 2.2.3), quote
    removal (2.6.7). */
module Shell {
  import opened Bindings

  // ----- the program's side -----

  /** `value.replaceAll` of each single quote. */
  function Escaped(value: string): string {
    if value == "" then ""
    else (if value[0] == '\'' then "'\"'\"'" else [value[0]]) + Escaped(value[1..])
  }

  /** `shellQuote` */
  function ShellQuote(value: string): string { "'" + Escaped(value) + "'" }

  function Joined(command: seq<string>): string
    requires command != []
  {
    if |command| == 1 then ShellQuote(command[0]) else ShellQuote(command[0]) + " " + Joined(command[1..])
  }

  function TotalLength(command: seq<string>): nat {
    if command == [] then 0 else |command[0]| + TotalLength(command[1..])
  }

  /** `validCommand` */
  predicate ValidCommand(command: seq<string>) {
    && 0 < |command| <= 64
    && (forall i :: 0 <= i < |command| ==> 0 < |command[i]| <= 4096 && '\0' !in command[i])
    && TotalLength(command) <= 32768
  }

  const REDIRECTION := "<&3 || status=$?"

  /** The line that starts the Runner. */
  function StartLine(command: seq<string>): string
    requires command != []
  {
    Joined(command) + " " + REDIRECTION
  }

  // ----- the shell's side -----

  datatype Mode = Unquoted | Single | Double

  /** The words of a simple command after quote removal, and the text from the first operator on; or what the scan
      cannot know the value of: an expansion, a pattern, an open quote. */
  datatype Scanned = Words(words: seq<string>, rest: string) | Unknown

  predicate IsOperator(c: char) {
    c == '&' || c == '|' || c == ';' || c == '<' || c == '>' || c == '(' || c == ')' || c == '\n'
  }

  predicate IsBlank(c: char) { c == ' ' || c == '\t' }

  predicate Expands(c: char) { c == '$' || c == '`' || c == '*' || c == '?' || c == '[' || c == '~' }

  function Finished(word: Option<string>, words: seq<string>): seq<string> {
    if word.Some? then words + [word.value] else words
  }

  function Grown(word: Option<string>, c: char): Option<string> {
    Some((if word.Some? then word.value else "") + [c])
  }

  function Opened(word: Option<string>): Option<string> {
    if word.Some? then word else Some("")
  }

  /** Scan from one character on; `word` is the word being built, if one has begun. */
  function Scan(s: string, mode: Mode, word: Option<string>, words: seq<string>): Scanned
    decreases |s|
  {
    if s == "" then (if mode == Unquoted then Words(Finished(word, words), "") else Unknown)
    else
      var c, t := s[0], s[1..];
      match mode
      case Single => if c == '\'' then Scan(t, Unquoted, word, words) else Scan(t, Single, Grown(word, c), words)
      case Double =>
        if c == '"' then Scan(t, Unquoted, word, words)
        else if c == '$' || c == '`' then Unknown
        else if c == '\\' && t != "" && t[0] in "$`\"\\\n" then
          Scan(t[1..], Double, if t[0] == '\n' then word else Grown(word, t[0]), words)
        else Scan(t, Double, Grown(word, c), words)
      case Unquoted =>
        if c == '\'' then Scan(t, Single, Opened(word), words)
        else if c == '"' then Scan(t, Double, Opened(word), words)
        else if c == '\\' then
          if t == "" then Unknown
          else Scan(t[1..], Unquoted, if t[0] == '\n' then word else Grown(word, t[0]), words)
        else if Expands(c) then Unknown
        else if IsOperator(c) then
          // a number right before a redirection would belong to it
          if (c == '<' || c == '>') && word.Some? then Unknown else Words(Finished(word, words), s)
        else if IsBlank(c) then Scan(t, Unquoted, None, Finished(word, words))
        else if c == '#' && word.None? then Words(words, s)
        else Scan(t, Unquoted, Grown(word, c), words)
  }

  // ----- the round trip -----

  lemma {:induction false} ScanEscaped(value: string, tail: string, built: string, words: seq<string>)
    ensures Scan(Escaped(value) + "'" + tail, Single, Some(built), words)
            == Scan(tail, Unquoted, Some(built + value), words)
    decreases |value|
  {
    var s := Escaped(value) + "'" + tail;
    if value == "" {
      assert s == "'" + tail && s[1..] == tail && built + value == built;
    } else {
      var c, more := value[0], Escaped(value[1..]) + "'" + tail;
      assert built + [c] + value[1..] == built + value;
      if c == '\'' {
        assert s == "'\"'\"'" + more;
        QuotedQuote(more, built, words);
      } else {
        assert s == [c] + more && s[1..] == more;
      }
      ScanEscaped(value[1..], tail, built + [c], words);
    }
  }

  /** The five characters that stand for a single quote. */
  lemma QuotedQuote(more: string, built: string, words: seq<string>)
    ensures Scan("'\"'\"'" + more, Single, Some(built), words) == Scan(more, Single, Some(built + "'"), words)
  {
    var s1, s2, s3, s4 := "\"'\"'" + more, "'\"'" + more, "\"'" + more, "'" + more;
    assert ("'\"'\"'" + more)[1..] == s1 && s1[1..] == s2 && s2[1..] == s3 && s3[1..] == s4 && s4[1..] == more;
    assert Scan(s4, Unquoted, Some(built + "'"), words) == Scan(more, Single, Some(built + "'"), words);
    assert Scan(s3, Double, Some(built + "'"), words) == Scan(s4, Unquoted, Some(built + "'"), words);
    assert Scan(s2, Double, Some(built), words) == Scan(s3, Double, Some(built + "'"), words);
    assert Scan(s1, Unquoted, Some(built), words) == Scan(s2, Double, Some(built), words);
  }

  lemma ScanQuoted(value: string, tail: string, words: seq<string>)
    ensures Scan(ShellQuote(value) + tail, Unquoted, None, words) == Scan(tail, Unquoted, Some(value), words)
  {
    var s := ShellQuote(value) + tail;
    assert s[1..] == Escaped(value) + "'" + tail;
    ScanEscaped(value, tail, "", words);
    assert "" + value == value;
  }

  lemma {:induction false} ScanJoined(command: seq<string>, tail: string, words: seq<string>)
    requires command != []
    ensures Scan(Joined(command) + " " + tail, Unquoted, None, words) == Scan(tail, Unquoted, None, words + command)
    decreases |command|
  {
    var first := command[0];
    if |command| == 1 {
      assert Joined(command) + " " + tail == ShellQuote(first) + (" " + tail);
      ScanQuoted(first, " " + tail, words);
      assert (" " + tail)[1..] == tail && words + [first] == words + command;
    } else {
      var more := Joined(command[1..]) + " " + tail;
      assert Joined(command) + " " + tail == ShellQuote(first) + (" " + more);
      ScanQuoted(first, " " + more, words);
      assert (" " + more)[1..] == more;
      ScanJoined(command[1..], tail, words + [first]);
      assert words + [first] + command[1..] == words + command;
    }
  }

  lemma OperatorStops(s: string, words: seq<string>)
    requires s != "" && IsOperator(s[0])
    ensures Scan(s, Unquoted, None, words) == Words(words, s)
  {
  }

  /** Quoting round trip: the shell reads the start line as exactly the words of the command, whatever characters they
      hold, followed by the redirection. */
  lemma StartLineRoundTrip(command: seq<string>)
    requires command != []
    ensures Scan(StartLine(command), Unquoted, None, []) == Words(command, REDIRECTION)
  {
    ScanJoined(command, REDIRECTION, []);
    assert [] + command == command;
    OperatorStops(REDIRECTION, command);
  }

  /** Different commands never give the same line. */
  lemma StartLineIsInjective(command: seq<string>, other: seq<string>)
    requires ValidCommand(command) && ValidCommand(other) && StartLine(command) == StartLine(other)
    ensures command == other
  {
    StartLineRoundTrip(command);
    StartLineRoundTrip(other);
  }

  /** One quoted value inside any line is one whole word of it. */
  lemma QuoteRoundTrip(value: string)
    ensures Scan(ShellQuote(value), Unquoted, None, []) == Words([value], "")
  {
    ScanQuoted(value, "", []);
    assert ShellQuote(value) + "" == ShellQuote(value);
  }
}
