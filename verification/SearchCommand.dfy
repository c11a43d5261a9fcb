/** The command that prints the following page of a search, quoted for a POSIX shell. */
module SearchCommand {
  import opened Text
  import opened Lists
  import opened Shell

  predicate IsSafe(c: char) {
    'a' <= c <= 'z' || 'A' <= c <= 'Z' || '0' <= c <= '9' || c in "-_.=/"
  }

  predicate NeedsQuoting(s: string) {
    s == "" || exists c :: c in s && !IsSafe(c)
  }

  /** strings.ReplaceAll(s, "'", `'\''`). */
  function EscapeQuotes(s: string): string {
    if s == "" then ""
    else (if s[0] == '\'' then "'\\''" else [s[0]]) + EscapeQuotes(s[1..])
  }

  function PosixQuote(s: string): (r: string)
    ensures r != ""
  {
    if !NeedsQuoting(s) then s else "'" + EscapeQuotes(s) + "'"
  }

  lemma {:induction false} EscapedReadsBack(s: string, rest: string, word: string)
    ensures Quoted(EscapeQuotes(s) + "'" + rest, word) == Unquoted(rest, Some(word + s))
  {
    if s == "" {
      assert EscapeQuotes(s) + "'" + rest == "'" + rest && word + s == word;
      QuoteEnds(rest, word);
    } else {
      var c := s[0];
      var tail := EscapeQuotes(s[1..]) + "'" + rest;
      EscapedReadsBack(s[1..], rest, word + [c]);
      assert (word + [c]) + s[1..] == word + s;
      EscapedStep(s, rest);
      if c == '\'' {
        QuoteEscaped(tail, word);
      } else {
        QuoteGoesOn(c, tail, word);
      }
    }
  }

  lemma EscapedStep(s: string, rest: string)
    requires s != ""
    ensures EscapeQuotes(s) + "'" + rest
         == (if s[0] == '\'' then "'\\''" else [s[0]]) + (EscapeQuotes(s[1..]) + "'" + rest)
  {
    var head := if s[0] == '\'' then "'\\''" else [s[0]];
    assert EscapeQuotes(s) == head + EscapeQuotes(s[1..]);
    assert head + EscapeQuotes(s[1..]) + "'" + rest == head + (EscapeQuotes(s[1..]) + "'" + rest);
  }

  /** A quoted word is read as that word, whatever follows it. */
  lemma QuotedWordReadsBack(w: string, rest: string)
    ensures Unquoted(PosixQuote(w) + rest, None) == Unquoted(rest, Some(w))
  {
    assert "" + w == w;
    if NeedsQuoting(w) {
      var inside := EscapeQuotes(w) + "'" + rest;
      assert PosixQuote(w) + rest == "'" + inside;
      QuoteBegins(inside, None);
      EscapedReadsBack(w, rest, "");
    } else {
      SafeIsPlain(w);
      PlainStandsForItself(w, rest, None);
    }
  }

  lemma SafeIsPlain(w: string)
    requires !NeedsQuoting(w)
    ensures forall c :: c in w ==> IsPlain(c)
  {
  }

  function QuoteAll(ws: seq<string>, quote: string -> string): seq<string> {
    if ws == [] then [] else [quote(ws[0])] + QuoteAll(ws[1..], quote)
  }

  /** A line of quoted words splits into exactly those words: empty ones, ones with blanks
      and ones with quotes included. */
  lemma {:induction false} QuotedLineReadsBack(ws: seq<string>)
    ensures Words(Join(QuoteAll(ws, PosixQuote), ' ')) == Some(ws)
  {
    if ws == [] {
      assert Join(QuoteAll(ws, PosixQuote), ' ') == "";
    } else if |ws| == 1 {
      assert QuoteAll(ws[1..], PosixQuote) == [];
      assert QuoteAll(ws, PosixQuote) == [PosixQuote(ws[0])];
      QuotedWordReadsBack(ws[0], "");
      assert PosixQuote(ws[0]) + "" == PosixQuote(ws[0]);
      assert ws == [ws[0]];
    } else {
      var rest := Join(QuoteAll(ws[1..], PosixQuote), ' ');
      assert QuoteAll(ws, PosixQuote)[1..] == QuoteAll(ws[1..], PosixQuote);
      assert Join(QuoteAll(ws, PosixQuote), ' ') == PosixQuote(ws[0]) + (" " + rest);
      QuotedWordReadsBack(ws[0], " " + rest);
      assert (" " + rest)[1..] == rest;
      QuotedLineReadsBack(ws[1..]);
      assert [ws[0]] + ws[1..] == ws;
    }
  }

  // ------------------------------------------------------------------ the command

  const STATUS_ONLINE := "online"
  const NAME := "blocks"
  const VERB := "search"

  /** limit is 0 when --limit was not given. */
  datatype NextPage = NextPage(args: seq<string>, profile: string, limit: nat, status: string, cursor: string)

  /** fmt.Sprint of a non-negative int. */
  function Decimal(n: nat): (r: string)
    ensures r != "" && forall c :: c in r ==> '0' <= c <= '9'
  {
    var d := [((n % 10) + 48) as char];
    if n < 10 then d else Decimal(n / 10) + d
  }

  function QueryWords(n: NextPage, quote: string -> string): seq<string> {
    if |n.args| > 0 then ["--"] + QuoteAll(n.args, quote) else []
  }

  function FromCursor(n: NextPage, quote: string -> string): seq<string> {
    ["--cursor", quote(n.cursor)] + QueryWords(n, quote)
  }

  function FromStatus(n: NextPage, quote: string -> string): seq<string> {
    if n.status != "" && n.status != STATUS_ONLINE then ["--status", quote(n.status)] + FromCursor(n, quote)
    else FromCursor(n, quote)
  }

  function FromLimit(n: NextPage, quote: string -> string): seq<string> {
    if n.limit > 0 then ["--limit", Decimal(n.limit)] + FromStatus(n, quote) else FromStatus(n, quote)
  }

  function FromProfile(n: NextPage, quote: string -> string): seq<string> {
    if n.profile != "" then ["--profile", quote(n.profile)] + FromLimit(n, quote) else FromLimit(n, quote)
  }

  /** The pieces of the printed text, for any quoting. */
  function Parts(n: NextPage, quote: string -> string): seq<string> {
    [NAME + " " + VERB] + FromProfile(n, quote)
  }

  function Plain(s: string): string { s }

  /** The words the printed command is meant to consist of, each as it is. */
  function Intended(n: NextPage): seq<string> {
    [NAME, VERB] + FromProfile(n, Plain)
  }

  function Printed(n: NextPage, quote: string -> string): string {
    if n.cursor == "" then ""
    else if "" in Parts(n, quote) then "repeat this search with --cursor " + quote(n.cursor)
    else Join(Parts(n, quote), ' ')
  }

  lemma {:induction false} QuotedAt(ws: seq<string>, quote: string -> string, i: nat)
    requires i < |ws|
    ensures quote(ws[i]) in QuoteAll(ws, quote)
  {
    if i > 0 {
      QuotedAt(ws[1..], quote, i - 1);
    }
  }

  lemma UnquotableIsAPart(n: NextPage, quote: string -> string)
    ensures quote(n.cursor) in Parts(n, quote)
    ensures n.profile != "" ==> quote(n.profile) in Parts(n, quote)
    ensures forall i :: 0 <= i < |n.args| ==> quote(n.args[i]) in Parts(n, quote)
  {
    forall i | 0 <= i < |n.args| ensures quote(n.args[i]) in QueryWords(n, quote) {
      QuotedAt(n.args, quote, i);
    }
    assert forall w :: w in QueryWords(n, quote) ==> w in FromCursor(n, quote);
    assert ["--cursor", quote(n.cursor)][1] in FromCursor(n, quote);
    assert forall w :: w in FromCursor(n, quote) ==> w in FromStatus(n, quote);
    assert forall w :: w in FromStatus(n, quote) ==> w in FromLimit(n, quote);
    assert forall w :: w in FromLimit(n, quote) ==> w in FromProfile(n, quote);
    assert ["--profile", quote(n.profile)][1] == quote(n.profile);
  }

  method Command(n: NextPage, quote: string -> string) returns (text: string)
    ensures text == Printed(n, quote)
    ensures n.cursor == "" ==> text == ""
    ensures n.cursor != "" && (quote(n.cursor) == "" || (n.profile != "" && quote(n.profile) == "")
                               || exists i :: 0 <= i < |n.args| && quote(n.args[i]) == "") ==>
              text == "repeat this search with --cursor " + quote(n.cursor)
  {
    UnquotableIsAPart(n, quote);
    if n.cursor == "" {
      return "";
    }
    ghost var goal := Parts(n, quote);
    var parts := [NAME + " " + VERB];
    if n.profile != "" {
      Associate(parts, ["--profile", quote(n.profile)], FromLimit(n, quote));
      parts := parts + ["--profile", quote(n.profile)];
    }
    if n.limit > 0 {
      Associate(parts, ["--limit", Decimal(n.limit)], FromStatus(n, quote));
      parts := parts + ["--limit", Decimal(n.limit)];
    }
    if n.status != "" && n.status != STATUS_ONLINE {
      Associate(parts, ["--status", quote(n.status)], FromCursor(n, quote));
      parts := parts + ["--status", quote(n.status)];
    }
    Associate(parts, ["--cursor", quote(n.cursor)], QueryWords(n, quote));
    parts := parts + ["--cursor", quote(n.cursor)];
    if |n.args| > 0 {
      Associate(parts, ["--"], QuoteAll(n.args, quote));
      parts := parts + ["--"];
      for i := 0 to |n.args|
        invariant parts + QuoteAll(n.args[i..], quote) == goal
      {
        assert n.args[i..][1..] == n.args[i + 1..];
        Associate(parts, [quote(n.args[i])], QuoteAll(n.args[i + 1..], quote));
        parts := parts + [quote(n.args[i])];
      }
    }
    assert parts + [] == parts;
    if "" in parts {
      return "repeat this search with --cursor " + quote(n.cursor);
    }
    return Join(parts, ' ');
  }

  lemma DigitsAreSafe(n: nat)
    ensures PosixQuote(Decimal(n)) == Decimal(n)
  {
  }

  lemma QuoteOption(flag: string, value: string, rest: seq<string>)
    requires !NeedsQuoting(flag)
    ensures QuoteAll([flag, value] + rest, PosixQuote) == [flag, PosixQuote(value)] + QuoteAll(rest, PosixQuote)
  {
    var ws := [flag, value] + rest;
    assert ws[1..][0] == value && ws[1..][1..] == rest;
    assert QuoteAll(ws[1..], PosixQuote) == [PosixQuote(value)] + QuoteAll(rest, PosixQuote);
    assert PosixQuote(flag) == flag;
  }

  lemma {:induction false} QuoteAllPlain(ws: seq<string>)
    ensures QuoteAll(ws, Plain) == ws
  {
    if ws != [] {
      QuoteAllPlain(ws[1..]);
    }
  }

  lemma QueryIsQuoted(n: NextPage)
    ensures QueryWords(n, PosixQuote) == QuoteAll(QueryWords(n, Plain), PosixQuote)
  {
    if |n.args| > 0 {
      QuoteAllPlain(n.args);
      assert (["--"] + n.args)[1..] == n.args;
      assert PosixQuote("--") == "--";
    }
  }

  lemma FromStatusIsQuoted(n: NextPage)
    ensures FromStatus(n, PosixQuote) == QuoteAll(FromStatus(n, Plain), PosixQuote)
  {
    QueryIsQuoted(n);
    QuoteOption("--cursor", n.cursor, QueryWords(n, Plain));
    QuoteOption("--status", n.status, FromCursor(n, Plain));
  }

  lemma FromLimitIsQuoted(n: NextPage)
    ensures FromLimit(n, PosixQuote) == QuoteAll(FromLimit(n, Plain), PosixQuote)
  {
    FromStatusIsQuoted(n);
    DigitsAreSafe(n.limit);
    QuoteOption("--limit", Decimal(n.limit), FromStatus(n, Plain));
  }

  /** Every word after the command's name is printed quoted, or needs no quotes. */
  lemma WordsAreQuoted(n: NextPage)
    ensures FromProfile(n, PosixQuote) == QuoteAll(FromProfile(n, Plain), PosixQuote)
  {
    FromLimitIsQuoted(n);
    QuoteOption("--profile", n.profile, FromLimit(n, Plain));
  }

  lemma JoinSplitsWord(a: string, b: string, tail: seq<string>)
    ensures Join([a + " " + b] + tail, ' ') == Join([a, b] + tail, ' ')
  {
    assert ([a, b] + tail)[1..] == [b] + tail;
    if tail == [] {
      assert [a + " " + b] + tail == [a + " " + b] && [b] + tail == [b];
    } else {
      assert ([b] + tail)[1..] == tail && ([a + " " + b] + tail)[1..] == tail;
      assert a + " " + b + " " + Join(tail, ' ') == a + " " + (b + " " + Join(tail, ' '));
    }
  }

  lemma {:induction false} NoneEmpty(ws: seq<string>)
    ensures "" !in QuoteAll(ws, PosixQuote)
  {
    if ws != [] {
      NoneEmpty(ws[1..]);
    }
  }

  lemma PartsAreIntended(n: NextPage)
    ensures Join(Parts(n, PosixQuote), ' ') == Join(QuoteAll(Intended(n), PosixQuote), ' ')
  {
    TwoWordName(NAME, VERB, FromProfile(n, Plain)) by {
      assert PosixQuote(NAME) == NAME && PosixQuote(VERB) == VERB;
    }
    WordsAreQuoted(n);
  }

  lemma NoPartIsEmpty(n: NextPage)
    ensures "" !in Parts(n, PosixQuote)
  {
    WordsAreQuoted(n);
    NoneEmpty(FromProfile(n, Plain));
  }

  /** Whatever the query, profile, status and cursor hold, a POSIX shell given the printed
      line runs exactly the intended words. */
  lemma CommandReadsBack(n: NextPage)
    requires n.cursor != ""
    ensures Words(Printed(n, PosixQuote)) == Some(Intended(n))
  {
    NoPartIsEmpty(n);
    PartsAreIntended(n);
    QuotedLineReadsBack(Intended(n));
  }

  lemma TwoWordName(a: string, b: string, ws: seq<string>)
    requires !NeedsQuoting(a) && !NeedsQuoting(b)
    ensures Join([a + " " + b] + QuoteAll(ws, PosixQuote), ' ') == Join(QuoteAll([a, b] + ws, PosixQuote), ' ')
  {
    QuoteOption(a, b, ws);
    JoinSplitsWord(a, b, QuoteAll(ws, PosixQuote));
  }

  // ------------------------------------------------------- and what that command does

  function ParseNat(s: string): Option<nat> {
    if s == "" then None
    else
      var d := s[|s| - 1];
      if !('0' <= d <= '9') then None
      else if |s| == 1 then Some(d as nat - 48)
      else
        match ParseNat(s[..|s| - 1])
        case Some(n) => Some(10 * n + (d as nat - 48))
        case None => None
  }

  lemma {:induction false} DecimalReadsBack(n: nat)
    ensures ParseNat(Decimal(n)) == Some(n)
  {
    if n >= 10 {
      DecimalReadsBack(n / 10);
      var s := Decimal(n);
      assert s[..|s| - 1] == Decimal(n / 10);
    }
  }

  /** The flags and arguments `blocks search` reads: a flag takes the next word whatever it
      is, "--" ends the flags, and every other word is part of the query. */
  function ParseSearch(ws: seq<string>, n: NextPage): Option<NextPage> {
    if ws == [] then Some(n)
    else if ws[0] == "--" then Some(n.(args := n.args + ws[1..]))
    else if ws[0] in {"--profile", "--limit", "--status", "--cursor"} then
      if |ws| < 2 then None
      else if ws[0] == "--profile" then ParseSearch(ws[2..], n.(profile := ws[1]))
      else if ws[0] == "--status" then ParseSearch(ws[2..], n.(status := ws[1]))
      else if ws[0] == "--cursor" then ParseSearch(ws[2..], n.(cursor := ws[1]))
      else
        match ParseNat(ws[1])
        case Some(k) => ParseSearch(ws[2..], n.(limit := k))
        case None => None
    else if HasPrefix(ws[0], "-") then None
    else ParseSearch(ws[1..], n.(args := n.args + [ws[0]]))
  }

  const NO_FLAGS := NextPage([], "", 0, STATUS_ONLINE, "")

  lemma ParseOption(flag: string, value: string, rest: seq<string>, n: NextPage)
    requires flag in {"--profile", "--status", "--cursor"}
    ensures ParseSearch([flag, value] + rest, n)
         == ParseSearch(rest, if flag == "--profile" then n.(profile := value)
                              else if flag == "--status" then n.(status := value)
                              else n.(cursor := value))
  {
    assert ([flag, value] + rest)[2..] == rest;
  }

  lemma ParseLimit(k: nat, rest: seq<string>, n: NextPage)
    ensures ParseSearch(["--limit", Decimal(k)] + rest, n) == ParseSearch(rest, n.(limit := k))
  {
    DecimalReadsBack(k);
    assert (["--limit", Decimal(k)] + rest)[2..] == rest;
  }

  lemma ParseQuery(n: NextPage, m: NextPage)
    requires m.args == []
    ensures ParseSearch(QueryWords(n, Plain), m) == Some(m.(args := n.args))
  {
    if |n.args| > 0 {
      QuoteAllPlain(n.args);
      assert (["--"] + n.args)[1..] == n.args && [] + n.args == n.args;
    }
  }

  function WhenGiven(given: bool, words: seq<string>): seq<string> {
    if given then words else []
  }

  lemma StatusOnwards(n: NextPage)
    ensures FromStatus(n, Plain)
         == WhenGiven(n.status !in {"", "online"}, ["--status", n.status]) + ["--cursor", n.cursor]
            + WhenGiven(|n.args| > 0, ["--"] + n.args)
  {
    QuoteAllPlain(n.args);
    var cursor, query := ["--cursor", n.cursor], WhenGiven(|n.args| > 0, ["--"] + n.args);
    assert QueryWords(n, Plain) == query;
    var status := WhenGiven(n.status !in {"", "online"}, ["--status", n.status]);
    Associate(status, cursor, query);
    assert [] + (cursor + query) == cursor + query;
  }

  /** The words, flag by flag: one that was not given is left out, and so is the status that is
      the default. */
  lemma IntendedExactly(n: NextPage)
    ensures Intended(n)
         == ["blocks", "search"]
            + (WhenGiven(n.profile != "", ["--profile", n.profile])
               + (WhenGiven(n.limit > 0, ["--limit", Decimal(n.limit)])
                  + (WhenGiven(n.status !in {"", "online"}, ["--status", n.status]) + ["--cursor", n.cursor]
                     + WhenGiven(|n.args| > 0, ["--"] + n.args))))
  {
    StatusOnwards(n);
    var words := FromStatus(n, Plain);
    assert [] + words == words && [] + FromLimit(n, Plain) == FromLimit(n, Plain);
  }

  /** Pasting the printed line searches again with the same query, deployment, page size
      and status, from the following page's cursor. */
  lemma CommandRepeatsTheSearch(n: NextPage)
    requires n.cursor != ""
    ensures Intended(n)[..2] == [NAME, VERB]
    ensures ParseSearch(Intended(n)[2..], NO_FLAGS)
         == Some(n.(status := if n.status == "" then STATUS_ONLINE else n.status))
  {
    assert Intended(n)[2..] == FromProfile(n, Plain);
    var n1 := NO_FLAGS.(profile := n.profile);
    var n2 := n1.(limit := n.limit);
    var n3 := n2.(status := if n.status == "" then STATUS_ONLINE else n.status);
    if n.profile != "" {
      ParseOption("--profile", n.profile, FromLimit(n, Plain), NO_FLAGS);
    }
    if n.limit > 0 {
      ParseLimit(n.limit, FromStatus(n, Plain), n1);
    }
    if n.status != "" && n.status != STATUS_ONLINE {
      ParseOption("--status", n.status, FromCursor(n, Plain), n2);
    }
    ParseOption("--cursor", n.cursor, QueryWords(n, Plain), n3);
    ParseQuery(n, n3.(cursor := n.cursor));
  }
}
