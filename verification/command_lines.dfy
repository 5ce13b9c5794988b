/** Quoting for the two command languages the install script is read by: the POSIX shell and systemd. */
module CommandLines {
  import opened Wrappers
  import opened Text

  function Join(parts: seq<string>): string {
    if parts == [] then ""
    else if |parts| == 1 then parts[0]
    else parts[0] + " " + Join(parts[1..])
  }

  // ---------- the shell ----------

  predicate IsShellSafe(c: char) {
    IsAsciiAlphanumeric(c) || c == '.' || c == '/' || c == ':' || c == '_' || c == '-' || c == '='
  }

  const QUOTED_QUOTE := "'\"'\"'"

  function ReplaceQuotes(value: string): string {
    if value == "" then ""
    else (if value[0] == '\'' then QUOTED_QUOTE else [value[0]]) + ReplaceQuotes(value[1..])
  }

  function ShellExportValue(value: string): string {
    "'" + ReplaceQuotes(value) + "'"
  }

  function ShellQuote(value: string): string {
    if forall c :: c in value ==> IsShellSafe(c) then value else ShellExportValue(value)
  }

  datatype Quoting = Bare | Single | Double

  predicate IsBlankChar(c: char) {
    c == ' ' || c == '\t'
  }

  /** The characters that section 2.2 of the POSIX Shell Command Language wants quoted, quotes and blanks apart. */
  predicate IsShellSpecial(c: char) {
    || c == '|' || c == '&' || c == ';' || c == '<' || c == '>' || c == '(' || c == ')' || c == '$' || c == '`'
    || c == '\\' || c == '*' || c == '?' || c == '[' || c == ']' || c == '#' || c == '~' || c == '%' || c == '!'
    || c == '{' || c == '}' || c == '\r' || c == '\n'
  }

  /** A word, or the bar that pipes one command into the next. */
  datatype Token = Word(text: string) | Pipe

  function Opened(word: Option<string>): string {
    if word.Some? then word.value else ""
  }

  function WordTokens(word: Option<string>): seq<Token> {
    if word.Some? then [Word(word.value)] else []
  }

  function After(tokens: seq<Token>, rest: Option<seq<Token>>): Option<seq<Token>> {
    if rest.None? then None else Some(tokens + rest.value)
  }

  /**
  The words of a pipeline after quote removal: sections 2.2.2, 2.2.3, 2.6.7 and 2.9.2 of the POSIX Shell Command
  Language.  There are none for an unterminated quote, another operator, or where the shell would expand something.
  */
  function ShellWords(line: string, quoting: Quoting, word: Option<string>): Option<seq<Token>>
    decreases |line|
  {
    if line == "" then
      if quoting != Bare then None else Some(WordTokens(word))
    else
      var c, rest := line[0], line[1..];
      match quoting
      case Bare =>
        if IsBlankChar(c) then After(WordTokens(word), ShellWords(rest, Bare, None))
        else if c == '|' && (rest == "" || (rest[0] != '|' && rest[0] != '&')) then
          After(WordTokens(word) + [Pipe], ShellWords(rest, Bare, None))
        else if c == '\'' then ShellWords(rest, Single, Some(Opened(word)))
        else if c == '"' then ShellWords(rest, Double, Some(Opened(word)))
        else if IsShellSpecial(c) then None
        else ShellWords(rest, Bare, Some(Opened(word) + [c]))
      case Single =>
        if c == '\'' then ShellWords(rest, Bare, word) else ShellWords(rest, Single, Some(Opened(word) + [c]))
      case Double =>
        if c == '"' then ShellWords(rest, Bare, word)
        else if c == '$' || c == '`' || c == '\\' then None
        else ShellWords(rest, Double, Some(Opened(word) + [c]))
  }

  lemma SingleQuoteStep(rest: string, word: string)
    ensures ShellWords(QUOTED_QUOTE + rest, Single, Some(word)) == ShellWords(rest, Single, Some(word + "'"))
  {
    var s := QUOTED_QUOTE + rest;
    assert s == ['\'', '"', '\'', '"', '\''] + rest;
    assert s[1..] == ['"', '\'', '"', '\''] + rest;
    assert s[1..][1..] == ['\'', '"', '\''] + rest;
    assert s[1..][1..][1..] == ['"', '\''] + rest;
    assert s[1..][1..][1..][1..] == ['\''] + rest;
    assert s[1..][1..][1..][1..][1..] == rest;
    assert ShellWords(s, Single, Some(word)) == ShellWords(s[1..], Bare, Some(word));
    assert ShellWords(s[1..], Bare, Some(word)) == ShellWords(s[1..][1..], Double, Some(word));
    assert ShellWords(s[1..][1..], Double, Some(word)) == ShellWords(s[1..][1..][1..], Double, Some(word + "'"));
    assert ShellWords(s[1..][1..][1..], Double, Some(word + "'")) == ShellWords(s[1..][1..][1..][1..], Bare, Some(word + "'"));
  }

  lemma {:induction false} ReplacedComesBack(value: string, rest: string, word: string)
    ensures ShellWords(ReplaceQuotes(value) + "'" + rest, Single, Some(word)) == ShellWords(rest, Bare, Some(word + value))
  {
    var s := ReplaceQuotes(value) + "'" + rest;
    if value == "" {
      assert s[1..] == rest && word + value == word;
    } else {
      var tail := ReplaceQuotes(value[1..]) + "'" + rest;
      ReplacedComesBack(value[1..], rest, word + [value[0]]);
      assert word + [value[0]] + value[1..] == word + value;
      if value[0] == '\'' {
        assert s == QUOTED_QUOTE + tail && [value[0]] == "'";
        SingleQuoteStep(tail, word);
      } else {
        assert s == [value[0]] + tail && s[1..] == tail;
      }
    }
  }

  lemma ExportedComesBack(value: string, rest: string, word: Option<string>)
    ensures ShellWords(ShellExportValue(value) + rest, Bare, word) == ShellWords(rest, Bare, Some(Opened(word) + value))
  {
    var s := ShellExportValue(value) + rest;
    assert s[1..] == ReplaceQuotes(value) + "'" + rest;
    ReplacedComesBack(value, rest, Opened(word));
  }

  lemma SafeIsOrdinary(c: char)
    ensures IsShellSafe(c) ==> !IsBlankChar(c) && !IsShellSpecial(c) && c != '\'' && c != '"' && c != '|'
  {
  }

  lemma SafeStep(c: char, rest: string, word: Option<string>)
    requires IsShellSafe(c)
    ensures ShellWords([c] + rest, Bare, word) == ShellWords(rest, Bare, Some(Opened(word) + [c]))
  {
    hide IsShellSafe, IsShellSpecial, IsBlankChar;
    SafeIsOrdinary(c);
    var s := [c] + rest;
    assert s[0] == c && s[1..] == rest;
  }

  lemma {:induction false} SafeComesBack(value: string, rest: string, word: Option<string>)
    requires value != "" && forall c :: c in value ==> IsShellSafe(c)
    ensures ShellWords(value + rest, Bare, word) == ShellWords(rest, Bare, Some(Opened(word) + value))
    decreases |value|
  {
    hide IsShellSafe, ShellWords;
    var c := value[0];
    assert value + rest == [c] + (value[1..] + rest);
    SafeStep(c, value[1..] + rest, word);
    if |value| > 1 {
      assert forall d :: d in value[1..] ==> d in value;
      SafeComesBack(value[1..], rest, Some(Opened(word) + [c]));
      assert Opened(word) + [c] + value[1..] == Opened(word) + value;
    } else {
      assert value == [c] && value[1..] + rest == rest;
    }
  }

  lemma QuotedComesBack(value: string, rest: string, word: Option<string>)
    requires value != ""
    ensures ShellWords(ShellQuote(value) + rest, Bare, word) == ShellWords(rest, Bare, Some(Opened(word) + value))
  {
    if forall c :: c in value ==> IsShellSafe(c) {
      SafeComesBack(value, rest, word);
    } else {
      ExportedComesBack(value, rest, word);
    }
  }

  /** One exported value is one word, that value, even when it is empty. */
  lemma ExportedIsOneWord(value: string)
    ensures ShellWords(ShellExportValue(value), Bare, None) == Some([Word(value)])
  {
    ExportedComesBack(value, "", None);
    assert ShellExportValue(value) + "" == ShellExportValue(value) && Opened(None) + value == value;
  }

  /** One quoted value is one word, that value, exactly when it is not empty: an empty one vanishes. */
  lemma QuotedIsOneWordExactlyWhenNotEmpty(value: string)
    ensures ShellWords(ShellQuote(value), Bare, None) == Some([Word(value)]) <==> value != ""
  {
    if value != "" {
      QuotedComesBack(value, "", None);
      assert ShellQuote(value) + "" == ShellQuote(value) && Opened(None) + value == value;
    }
  }

  function QuoteAll(values: seq<string>): seq<string> {
    seq(|values|, i requires 0 <= i < |values| => ShellQuote(values[i]))
  }

  function NonEmpty(values: seq<string>): seq<string> {
    if values == [] then [] else (if values[0] == "" then [] else [values[0]]) + NonEmpty(values[1..])
  }

  function Words(values: seq<string>): seq<Token> {
    seq(|values|, i requires 0 <= i < |values| => Word(values[i]))
  }

  lemma BlankEndsWord(line: string, word: Option<string>)
    ensures ShellWords(" " + line, Bare, word) == After(WordTokens(word), ShellWords(line, Bare, None))
  {
    assert (" " + line)[1..] == line;
  }

  /** Quoted values before anything else on the line are so many words, but the empty ones. */
  lemma {:induction false} QuotedWordsThen(values: seq<string>, tail: string)
    ensures ShellWords(Join(QuoteAll(values)) + (" " + tail), Bare, None) ==
            After(Words(NonEmpty(values)), ShellWords(tail, Bare, None))
    decreases |values|
  {
    hide ShellQuote, ShellWords;
    var line := Join(QuoteAll(values)) + (" " + tail);
    if values == [] {
      assert line == " " + tail && WordTokens(None) == Words(NonEmpty(values));
      BlankEndsWord(tail, None);
    } else {
      var word := if values[0] == "" then None else Some(values[0]);
      NonEmptyWords(values);
      assert QuoteAll(values)[0] == ShellQuote(values[0]);
      if |values| == 1 {
        assert QuoteAll(values) == [ShellQuote(values[0])];
        assert line == ShellQuote(values[0]) + (" " + tail) && values[1..] == [];
        QuotedIsItsWord(values[0], " " + tail);
        BlankEndsWord(tail, word);
        assert WordTokens(word) + Words(NonEmpty([])) == WordTokens(word);
      } else {
        var rest := Join(QuoteAll(values[1..])) + (" " + tail);
        assert QuoteAll(values)[1..] == QuoteAll(values[1..]);
        assert line == ShellQuote(values[0]) + (" " + rest);
        QuotedIsItsWord(values[0], " " + rest);
        QuotedWordsThen(values[1..], tail);
        BlankEndsWord(rest, word);
        AfterAfter(WordTokens(word), Words(NonEmpty(values[1..])), ShellWords(tail, Bare, None));
      }
    }
  }

  lemma AfterAfter(a: seq<Token>, b: seq<Token>, rest: Option<seq<Token>>)
    ensures After(a, After(b, rest)) == After(a + b, rest)
  {
    if rest.Some? {
      assert a + (b + rest.value) == (a + b) + rest.value;
    }
  }

  lemma WordsFirst(first: string, rest: seq<string>)
    ensures Words([first] + rest) == [Word(first)] + Words(rest)
  {
    var all := [first] + rest;
    forall i | 0 <= i < |all|
      ensures Words(all)[i] == ([Word(first)] + Words(rest))[i]
    {
      assert i > 0 ==> all[i] == rest[i - 1];
    }
  }

  lemma NonEmptyWords(values: seq<string>)
    requires values != []
    ensures Words(NonEmpty(values)) == WordTokens(if values[0] == "" then None else Some(values[0])) + Words(NonEmpty(values[1..]))
  {
    hide Words;
    var rest := NonEmpty(values[1..]);
    if values[0] == "" {
      assert NonEmpty(values) == [] + rest == rest;
      assert [] + Words(rest) == Words(rest);
    } else {
      WordsFirst(values[0], rest);
    }
  }

  /** A whole line of quoted values gives back all of them but the empty ones. */
  lemma QuotedLineComesBack(values: seq<string>)
    ensures ShellWords(Join(QuoteAll(values)), Bare, None) == Some(Words(NonEmpty(values)))
    decreases |values|
  {
    hide ShellQuote, ShellWords;
    if values == [] {
      NothingIsNoWord();
    } else {
      var word := if values[0] == "" then None else Some(values[0]);
      NonEmptyWords(values);
      assert QuoteAll(values)[0] == ShellQuote(values[0]);
      if |values| == 1 {
        QuotedIsItsWord(values[0], "");
        assert Join(QuoteAll(values)) == ShellQuote(values[0]) == ShellQuote(values[0]) + "" && values[1..] == [];
        LastWord(word);
        assert WordTokens(word) + Words(NonEmpty([])) == WordTokens(word);
      } else {
        var rest := Join(QuoteAll(values[1..]));
        assert QuoteAll(values)[1..] == QuoteAll(values[1..]);
        assert Join(QuoteAll(values)) == ShellQuote(values[0]) + (" " + rest);
        QuotedIsItsWord(values[0], " " + rest);
        QuotedLineComesBack(values[1..]);
        BlankEndsWord(rest, word);
      }
    }
  }

  lemma NothingIsNoWord()
    ensures ShellWords("", Bare, None) == Some([])
  {
  }

  lemma LastWord(word: Option<string>)
    ensures ShellWords("", Bare, word) == Some(WordTokens(word))
  {
  }

  lemma QuotedIsItsWord(value: string, rest: string)
    ensures ShellWords(ShellQuote(value) + rest, Bare, None) ==
            ShellWords(rest, Bare, if value == "" then None else Some(value))
  {
    if value == "" {
      assert ShellQuote(value) + rest == rest;
    } else {
      QuotedComesBack(value, rest, None);
      assert Opened(None) + value == value;
    }
  }

  lemma {:induction false} AllNonEmpty(values: seq<string>)
    requires forall i :: 0 <= i < |values| ==> values[i] != ""
    ensures NonEmpty(values) == values
  {
    if values != [] {
      assert values[0] != "";
      AllNonEmpty(values[1..]);
      assert values == [values[0]] + values[1..];
    }
  }

  lemma BarPipes(rest: string)
    requires rest != "" && rest[0] == ' '
    ensures ShellWords("|" + rest, Bare, None) == After([Pipe], ShellWords(rest, Bare, None))
  {
    var line := "|" + rest;
    assert line[0] == '|' && line[1..] == rest && WordTokens(None) + [Pipe] == [Pipe];
  }

  lemma BashIsAWord()
    ensures ShellWords("bash", Bare, None) == Some([Word("bash")])
  {
    hide ShellWords;
    SafeComesBack("bash", "", None);
    assert "bash" + "" == "bash" && Opened(None) + "bash" == "bash";
    LastWord(Some("bash"));
  }

  lemma PipeToBash()
    ensures ShellWords("| bash", Bare, None) == Some([Pipe, Word("bash")])
  {
    hide ShellWords;
    assert "| bash" == "|" + " bash" && " bash" == " " + "bash";
    BarPipes(" bash");
    BlankEndsWord("bash", None);
    BashIsAWord();
    assert WordTokens(None) + [Word("bash")] == [Word("bash")];
    assert [Pipe] + [Word("bash")] == [Pipe, Word("bash")];
  }

  /** The install command hands the link to curl, whatever the link is, and pipes its output into bash. */
  lemma InstallCommandComesBack(url: string)
    requires url != ""
    ensures ShellWords("curl -fsSL " + ShellQuote(url) + " | bash", Bare, None) ==
            Some([Word("curl"), Word("-fsSL"), Word(url), Pipe, Word("bash")])
  {
    hide ShellWords, ShellQuote;
    var words := ["curl", "-fsSL", url];
    QuotedWordsThen(words, "| bash");
    PipeToBash();
    PlainWordsAreThemselves();
    var quoted := QuoteAll(words);
    assert quoted == ["curl", "-fsSL", ShellQuote(url)];
    assert quoted[1..] == ["-fsSL", ShellQuote(url)] && quoted[1..][1..] == [ShellQuote(url)];
    assert Join([ShellQuote(url)]) == ShellQuote(url);
    assert Join(["-fsSL", ShellQuote(url)]) == "-fsSL" + " " + Join([ShellQuote(url)]);
    assert Join(quoted) == "curl" + " " + Join(["-fsSL", ShellQuote(url)]);
    assert Join(quoted) + (" " + "| bash") == "curl -fsSL " + ShellQuote(url) + " | bash";
    AllNonEmpty(words);
    assert Words(words) + [Pipe, Word("bash")] == [Word("curl"), Word("-fsSL"), Word(url), Pipe, Word("bash")];
    assert Words(words) == [Word("curl"), Word("-fsSL"), Word(url)];
  }

  lemma PlainWordsAreThemselves()
    ensures ShellQuote("curl") == "curl" && ShellQuote("-fsSL") == "-fsSL"
  {
  }

  // ---------- systemd ----------

  predicate IsSystemdSafe(c: char) {
    IsShellSafe(c) || c == ','
  }

  function EscapeChar(c: char): string {
    if c == '\\' then "\\\\"
    else if c == '"' then "\\\""
    else if c == '%' then "%%"
    else if c == '$' then "$$"
    else if c == '\n' || c == '\r' then " "
    else [c]
  }

  function Escape(value: string): string {
    if value == "" then "" else EscapeChar(value[0]) + Escape(value[1..])
  }

  predicate AllSystemdSafe(value: string) {
    value != "" && forall c :: c in value ==> IsSystemdSafe(c)
  }

  function ExecArg(value: string): string {
    if AllSystemdSafe(value) then value else "\"" + Escape(value) + "\""
  }

  lemma {:induction false} EscapeAppends(a: string, b: string)
    ensures Escape(a + b) == Escape(a) + Escape(b)
  {
    if a == "" {
      assert a + b == b;
    } else {
      assert (a + b)[1..] == a[1..] + b;
      EscapeAppends(a[1..], b);
    }
  }

  method SystemdExecArg(value: string) returns (r: string)
    ensures r == ExecArg(value)
  {
    if value != "" && forall c :: c in value ==> IsSystemdSafe(c) {
      return value;
    }
    var escaped := "";
    for i := 0 to |value|
      invariant escaped == Escape(value[..i])
    {
      EscapeAppends(value[..i], [value[i]]);
      assert value[..i + 1] == value[..i] + [value[i]] && [value[i]][1..] == "";
      match value[i] {
        case '\\' => escaped := escaped + "\\\\";
        case '"' => escaped := escaped + "\\\"";
        case '%' => escaped := escaped + "%%";
        case '$' => escaped := escaped + "$$";
        case '\n' => escaped := escaped + " ";
        case '\r' => escaped := escaped + " ";
        case c => escaped := escaped + [c];
      }
    }
    assert value[..|value|] == value;
    r := "\"" + escaped + "\"";
  }

  /**
  The arguments of an `ExecStart=` line, as systemd.service(5) and systemd.syntax(7) describe them: words split
  at whitespace, double quotes, `\\` and `\"`, `%%` for a percent sign and `$$` for a dollar sign.  There are none
  for an unterminated quote, another escape, a specifier, a variable or a single quote that opens a word.
  */
  function ExecWords(line: string, quoted: bool, word: Option<string>): Option<seq<string>>
    decreases |line|
  {
    if line == "" then
      if quoted then None else Some(if word.Some? then [word.value] else [])
    else
      var c := line[0];
      if c == '\\' then
        if |line| >= 2 && (line[1] == '\\' || line[1] == '"') then ExecWords(line[2..], quoted, Some(Opened(word) + [line[1]]))
        else None
      else if c == '%' || c == '$' then
        if |line| >= 2 && line[1] == c then ExecWords(line[2..], quoted, Some(Opened(word) + [c])) else None
      else if c == '"' then ExecWords(line[1..], !quoted, Some(Opened(word)))
      else if c == '\n' || c == '\r' then None
      else if !quoted && IsBlankChar(c) then
        var words := ExecWords(line[1..], false, None);
        if word.Some? && words.Some? then Some([word.value] + words.value) else words
      else if !quoted && (c == '\'' || (c == ';' && word.None?)) then None
      else ExecWords(line[1..], quoted, Some(Opened(word) + [c]))
  }

  /** Line breaks become spaces; nothing else is lost. */
  function OnOneLine(value: string): string {
    seq(|value|, i requires 0 <= i < |value| => if value[i] == '\n' || value[i] == '\r' then ' ' else value[i])
  }

  lemma {:induction false} EscapedComesBack(value: string, rest: string, word: string)
    ensures ExecWords(Escape(value) + "\"" + rest, true, Some(word)) == ExecWords(rest, false, Some(word + OnOneLine(value)))
  {
    var s := Escape(value) + "\"" + rest;
    if value == "" {
      assert s[1..] == rest && word + OnOneLine(value) == word;
    } else {
      var tail := Escape(value[1..]) + "\"" + rest;
      var first := OnOneLine(value)[0];
      EscapedComesBack(value[1..], rest, word + [first]);
      assert word + [first] + OnOneLine(value[1..]) == word + OnOneLine(value);
      assert s == EscapeChar(value[0]) + tail;
      if |EscapeChar(value[0])| == 2 {
        assert s[2..] == tail && s[1] == value[0];
      } else {
        assert s[1..] == tail && s[0] == first;
      }
    }
  }

  lemma SafeArgStep(c: char, rest: string, word: Option<string>)
    requires IsSystemdSafe(c)
    ensures ExecWords([c] + rest, false, word) == ExecWords(rest, false, Some(Opened(word) + [c]))
  {
    var s := [c] + rest;
    assert s[0] == c && s[1..] == rest;
  }

  lemma {:induction false} SafeArgComesBack(value: string, rest: string, word: Option<string>)
    requires AllSystemdSafe(value)
    ensures ExecWords(value + rest, false, word) == ExecWords(rest, false, Some(Opened(word) + value))
    decreases |value|
  {
    hide IsSystemdSafe, ExecWords;
    var c := value[0];
    assert value + rest == [c] + (value[1..] + rest);
    SafeArgStep(c, value[1..] + rest, word);
    if |value| > 1 {
      assert forall d :: d in value[1..] ==> d in value;
      SafeArgComesBack(value[1..], rest, Some(Opened(word) + [c]));
      assert Opened(word) + [c] + value[1..] == Opened(word) + value;
    } else {
      assert value == [c] && value[1..] + rest == rest;
    }
  }

  lemma ArgComesBack(value: string, rest: string)
    ensures ExecWords(ExecArg(value) + rest, false, None) == ExecWords(rest, false, Some(OnOneLine(value)))
  {
    hide ExecWords, Escape;
    assert Opened(None) + value == value && "" + OnOneLine(value) == OnOneLine(value);
    if AllSystemdSafe(value) {
      SafeArgComesBack(value, rest, None);
      forall i | 0 <= i < |value|
        ensures OnOneLine(value)[i] == value[i]
      {
        assert value[i] in value;
      }
      assert OnOneLine(value) == value;
    } else {
      QuotedArgComesBack(value, rest);
    }
  }

  lemma QuotedArgComesBack(value: string, rest: string)
    ensures ExecWords("\"" + Escape(value) + "\"" + rest, false, None) == ExecWords(rest, false, Some(OnOneLine(value)))
  {
    hide Escape, OnOneLine;
    var s := "\"" + Escape(value) + "\"" + rest;
    assert s[1..] == Escape(value) + "\"" + rest;
    EscapedComesBack(value, rest, "");
    assert "" + OnOneLine(value) == OnOneLine(value);
  }

  function ExecArgs(values: seq<string>): seq<string> {
    seq(|values|, i requires 0 <= i < |values| => ExecArg(values[i]))
  }

  function OnOneLineAll(values: seq<string>): seq<string> {
    seq(|values|, i requires 0 <= i < |values| => OnOneLine(values[i]))
  }

  lemma BlankEndsArg(line: string, word: string)
    ensures ExecWords(" " + line, false, Some(word)) ==
            match ExecWords(line, false, None)
            case None => None
            case Some(words) => Some([word] + words)
  {
    assert (" " + line)[1..] == line;
  }

  /** The client's whole argument list, empty arguments included, comes back with line breaks as spaces. */
  lemma {:induction false} ArgumentsComeBack(values: seq<string>)
    ensures ExecWords(Join(ExecArgs(values)), false, None) == Some(OnOneLineAll(values))
    decreases |values|
  {
    hide ExecArg, OnOneLine;
    if values == [] {
    } else if |values| == 1 {
      ArgComesBack(values[0], "");
      assert ExecArgs(values)[0] == ExecArg(values[0]) == ExecArg(values[0]) + "";
      assert OnOneLineAll(values) == [OnOneLine(values[0])];
    } else {
      var rest := Join(ExecArgs(values[1..]));
      assert ExecArgs(values)[1..] == ExecArgs(values[1..]) && ExecArgs(values)[0] == ExecArg(values[0]);
      assert Join(ExecArgs(values)) == ExecArg(values[0]) + (" " + rest);
      ArgComesBack(values[0], " " + rest);
      ArgumentsComeBack(values[1..]);
      BlankEndsArg(rest, OnOneLine(values[0]));
      assert OnOneLineAll(values) == [OnOneLine(values[0])] + OnOneLineAll(values[1..]);
    }
  }

  /** Flags and numbers are written as they are: quoting them would change nothing. */
  lemma SafeArgumentIsItself(value: string)
    ensures ExecArg(value) == value <==> AllSystemdSafe(value)
  {
    if !AllSystemdSafe(value) && ExecArg(value) == value {
      EscapeLonger(value);
    }
  }

  lemma {:induction false} EscapeLonger(value: string)
    ensures |Escape(value)| >= |value|
  {
    if value != "" {
      EscapeLonger(value[1..]);
    }
  }
}
