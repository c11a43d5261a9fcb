/** How a POSIX shell turns a command line into words: field splitting at blanks, the
    backslash of section 2.2.1 and the single quotes of section 2.2.2 of the Shell Command
    Language. A line on which any other character with a meaning of its own stands
    unquoted is not given a reading here. */
module Shell {
  import opened Text

  predicate IsBlank(c: char) {
    c == ' ' || c == '\t'
  }

  /** Characters of section 2.2 that do something other than stand for themselves. */
  predicate IsSpecial(c: char) {
    c in "|&;<>()$`\"*?[#~\n\r"
  }

  function Words(s: string): Option<seq<string>> {
    Unquoted(s, None)
  }

  function Started(word: Option<string>): string {
    if word.Some? then word.value else ""
  }

  function AddWord(word: string, rest: Option<seq<string>>): Option<seq<string>> {
    if rest.Some? then Some([word] + rest.value) else None
  }

  /** word is the word being read, if one has begun. */
  function Unquoted(s: string, word: Option<string>): Option<seq<string>>
    decreases |s|
  {
    if s == "" then Some(if word.Some? then [word.value] else [])
    else if IsBlank(s[0]) then
      if word.Some? then AddWord(word.value, Unquoted(s[1..], None)) else Unquoted(s[1..], None)
    else if s[0] == '\'' then Quoted(s[1..], Started(word))
    else if s[0] == '\\' then
      if |s| < 2 then None
      else if s[1] == '\n' then Unquoted(s[2..], word)
      else Unquoted(s[2..], Some(Started(word) + [s[1]]))
    else if IsSpecial(s[0]) then None
    else Unquoted(s[1..], Some(Started(word) + [s[0]]))
  }

  function Quoted(s: string, word: string): Option<seq<string>>
    decreases |s|
  {
    if s == "" then None
    else if s[0] == '\'' then Unquoted(s[1..], Some(word))
    else Quoted(s[1..], word + [s[0]])
  }

  lemma QuoteBegins(rest: string, word: Option<string>)
    ensures Unquoted("'" + rest, word) == Quoted(rest, Started(word))
  {
    assert ("'" + rest)[1..] == rest;
  }

  lemma QuoteEnds(rest: string, word: string)
    ensures Quoted("'" + rest, word) == Unquoted(rest, Some(word))
  {
    assert ("'" + rest)[1..] == rest;
  }

  lemma QuoteGoesOn(c: char, rest: string, word: string)
    requires c != '\''
    ensures Quoted([c] + rest, word) == Quoted(rest, word + [c])
  {
    assert ([c] + rest)[1..] == rest;
  }

  /** The quotes end, an escaped quote is read, and they begin again. */
  lemma QuoteEscaped(rest: string, word: string)
    ensures Quoted("'\\''" + rest, word) == Quoted(rest, word + "'")
  {
    assert "'\\''" + rest == "'" + ("\\''" + rest);
    QuoteEnds("\\''" + rest, word);
    assert ("\\''" + rest)[2..] == "'" + rest;
    QuoteBegins(rest, Some(word + "'"));
  }

  predicate IsPlain(c: char) {
    !IsBlank(c) && !IsSpecial(c) && c != '\'' && c != '\\'
  }

  lemma {:induction false} PlainStandsForItself(text: string, rest: string, word: Option<string>)
    requires text != "" && forall c :: c in text ==> IsPlain(c)
    ensures Unquoted(text + rest, word) == Unquoted(rest, Some(Started(word) + text))
  {
    var s := text + rest;
    assert s[0] == text[0] && text[0] in text && s[1..] == text[1..] + rest;
    var next := Some(Started(word) + [text[0]]);
    if |text| > 1 {
      PlainStandsForItself(text[1..], rest, next);
      assert Started(next) + text[1..] == Started(word) + text;
    } else {
      assert text[1..] + rest == rest;
      assert [text[0]] == text;
    }
  }

  lemma {:induction false} QuotedStandsForItself(text: string, rest: string, word: string)
    requires '\'' !in text
    ensures Quoted(text + "'" + rest, word) == Unquoted(rest, Some(word + text))
  {
    var s := text + "'" + rest;
    if text == "" {
      assert s[0] == '\'' && s[1..] == rest;
      assert word + text == word;
    } else {
      assert s[0] == text[0] && text[0] in text && s[1..] == text[1..] + "'" + rest;
      QuotedStandsForItself(text[1..], rest, word + [text[0]]);
      assert (word + [text[0]]) + text[1..] == word + text;
    }
  }

  // -------------------------------------------------------- an assignment on a line

  datatype ShellVariable = ShellVariable(name: string, value: string)

  /** What a shell told to source a line assigns, when the line is one assignment: the
      unquoted name before the "=", and the rest of the line read as at most one word. */
  function SourcedAssignment(line: string, nameLength: nat): Option<ShellVariable>
    requires nameLength < |line| && line[nameLength] == '='
  {
    match Words(line[nameLength + 1..])
    case Some(ws) =>
      if |ws| == 0 then Some(ShellVariable(line[..nameLength], ""))
      else if |ws| == 1 then Some(ShellVariable(line[..nameLength], ws[0]))
      else None
    case None => None
  }
}
