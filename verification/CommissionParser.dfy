/** The `/commission` command of minos/core/intake.go: key tokens in any order, then the summary. */
module CommissionParser {
  import opened Options
  import opened Text

  datatype Request = Request(repo: string, branch: string, base: string, summary: string)

  datatype Parsed = Ok(request: Request) | NotACommand | RepoRequired | BranchRequired | SummaryRequired

  const PREFIX := "/commission"

  datatype Key = Repo | Branch | Base {
    function Name(): string {
      match this
      case Repo => "repo"
      case Branch => "branch"
      case Base => "base"
    }
  }

  /** The regular expression class \s, which is narrower than unicode.IsSpace. */
  predicate Blank(c: char) {
    c == '\t' || c == '\n' || c == '\U{0c}' || c == '\r' || c == ' '
  }

  function SkipBlanks(s: string): (r: string)
    ensures |r| <= |s|
    ensures r != "" ==> !Blank(r[0])
  {
    if s != "" && Blank(s[0]) then SkipBlanks(s[1..]) else s
  }

  /** The length of the leading run without blanks. */
  function Word(s: string): (n: nat)
    ensures n <= |s|
    ensures forall i :: 0 <= i < n ==> !Blank(s[i])
    ensures n < |s| ==> Blank(s[n])
  {
    if s == "" || Blank(s[0]) then 0 else 1 + Word(s[1..])
  }

  /** The position of the first double quote, or the length of the string. */
  function Quote(s: string): (n: nat)
    ensures n <= |s| && '"' !in s[..n]
    ensures n < |s| ==> s[n] == '"'
  {
    if s == "" || s[0] == '"' then 0 else 1 + Quote(s[1..])
  }

  function StripPrefix(s: string, prefix: string): Option<string> {
    if prefix <= s then Some(s[|prefix|..]) else None
  }

  function KeyAt(s: string): Option<Key> {
    if "repo=" <= s then Some(Repo) else if "branch=" <= s then Some(Branch) else if "base=" <= s then Some(Base)
        else None
  }

  datatype Token = Token(key: Key, value: string, rest: string)

  /** The value after a key: the quoted alternative first, a plain word otherwise. */
  function LexValue(key: Key, after: string): (t: Option<Token>)
    ensures t.Some? ==> |t.value.rest| < |after|
  {
    if after != "" && after[0] == '"' && Quote(after[1..]) < |after| - 1 then
      var q := Quote(after[1..]);
      Some(Token(key, after[1..q + 1], SkipBlanks(after[q + 2..])))
    else if Word(after) > 0 then
      Some(Token(key, after[..Word(after)], SkipBlanks(after[Word(after)..])))
    else None
  }

  /** One match of the token expression. Every match shortens what is left to read. */
  function Lex(s: string): (t: Option<Token>)
    ensures t.Some? ==> |t.value.rest| < |s|
  {
    match KeyAt(s)
    case None => None
    case Some(key) => LexValue(key, s[|key.Name()| + 1..])
  }

  /** TrimLeft with the cutset of space and tab. */
  function TrimBlanks(s: string): (r: string)
    ensures |r| <= |s|
  {
    if s != "" && (s[0] == ' ' || s[0] == '\t') then TrimBlanks(s[1..]) else s
  }

  /** The fields after a token: the last one for a key wins. */
  function With(r: Request, key: Key, value: string): Request {
    match key
    case Repo => r.(repo := value)
    case Branch => r.(branch := value)
    case Base => r.(base := value)
  }

  /** Everything after the prefix: tokens while there are any, then the summary. */
  function Read(rest: string, r: Request): Request
    decreases |rest|
  {
    match Lex(rest)
    case Some(t) => Read(t.rest, With(r, t.key, t.value))
    case None => r.(summary := TrimSpace(rest))
  }

  function Checked(r: Request): Parsed {
    if r.repo == "" then RepoRequired
    else if r.branch == "" then BranchRequired
    else if r.summary == "" then SummaryRequired
    else Ok(r)
  }

  const BLANK_REQUEST := Request("", "", "", "")

  function Parse(text: string): Parsed {
    match StripPrefix(TrimSpace(text), PREFIX)
    case None => NotACommand
    case Some(rest) => Checked(Read(TrimBlanks(rest), BLANK_REQUEST))
  }

  /** A text is a commission, well or badly put, exactly if it begins with the word once trimmed. */
  lemma OnlyCommandsParse(text: string)
    ensures Parse(text) == NotACommand <==> !("/commission" <= TrimSpace(text))
  {
    hide TrimSpace, TrimBlanks, Read;
  }

  method ParseCommissionCommand(text: string) returns (p: Parsed)
    ensures p == Parse(text)
    ensures p == NotACommand <==> !("/commission" <= TrimSpace(text))
    ensures p.Ok? ==> p.request.repo != "" && p.request.branch != "" && p.request.summary != ""
  {
    OnlyCommandsParse(text);
    var trimmed := TrimSpace(text);
    var stripped := StripPrefix(trimmed, PREFIX);
    if stripped == None {
      return NotACommand;
    }
    var rest := TrimBlanks(stripped.value);
    var repo, branch, base := "", "", "";
    ghost var whole := Read(rest, BLANK_REQUEST);
    while true
      invariant whole == Read(rest, Request(repo, branch, base, ""))
      decreases |rest|
    {
      var m := Lex(rest);
      if m == None {
        break;
      }
      match m.value.key {
        case Repo => repo := m.value.value;
        case Branch => branch := m.value.value;
        case Base => base := m.value.value;
      }
      rest := m.value.rest;
    }
    var summary := TrimSpace(rest);
    if repo == "" {
      return RepoRequired;
    }
    if branch == "" {
      return BranchRequired;
    }
    if summary == "" {
      return SummaryRequired;
    }
    p := Ok(Request(repo, branch, base, summary));
  }

  // ---- The round trip ----

  /** A token as an operator may write it: in quotes, or plain. */
  datatype Written = Written(key: Key, value: string, quoted: bool)

  predicate Writable(w: Written) {
    if w.quoted then '"' !in w.value
    else w.value != "" && w.value[0] != '"' && forall i :: 0 <= i < |w.value| ==> !Blank(w.value[i])
  }

  function Show(w: Written): string {
    w.key.Name() + "=" + (if w.quoted then "\"" + w.value + "\"" else w.value) + " "
  }

  function ShowAll(ws: seq<Written>): string {
    if ws == [] then "" else Show(ws[0]) + ShowAll(ws[1..])
  }

  function Printed(ws: seq<Written>, summary: string): string {
    PREFIX + (" " + (ShowAll(ws) + summary))
  }

  function WithAll(r: Request, ws: seq<Written>): Request
    decreases |ws|
  {
    if ws == [] then r else WithAll(With(r, ws[0].key, ws[0].value), ws[1..])
  }

  /** A summary an operator can have meant: trimmed and not empty. */
  predicate Summary(s: string) {
    s != "" && Trimmed(s)
  }

  lemma {:induction false} QuoteAt(value: string, tail: string)
    requires '"' !in value
    ensures Quote(value + "\"" + tail) == |value|
    decreases |value|
  {
    if value == "" {
      assert value + "\"" + tail == "\"" + tail;
    } else {
      assert (value + "\"" + tail)[1..] == value[1..] + "\"" + tail;
      QuoteAt(value[1..], tail);
    }
  }

  lemma {:induction false} WordAt(value: string, tail: string)
    requires forall i :: 0 <= i < |value| ==> !Blank(value[i])
    ensures Word(value + " " + tail) == |value|
    decreases |value|
  {
    if value == "" {
      assert value + " " + tail == " " + tail;
    } else {
      assert (value + " " + tail)[1..] == value[1..] + " " + tail;
      WordAt(value[1..], tail);
    }
  }

  lemma KeyShown(key: Key, tail: string)
    ensures KeyAt(key.Name() + "=" + tail) == Some(key)
    ensures (key.Name() + "=" + tail)[|key.Name()| + 1..] == tail
  {
    var s := key.Name() + "=" + tail;
    assert s[..|key.Name()| + 1] == key.Name() + "=";
    match key
    case Repo => assert "repo=" <= s;
    case Branch => assert s[0] == 'b' && "branch=" <= s;
    case Base => assert s[0] == 'b' && s[1] == 'a' && s[2] == 's' && "base=" <= s;
  }

  lemma SkipsOneSpace(tail: string)
    requires tail != "" ==> !Blank(tail[0])
    ensures SkipBlanks(" " + tail) == tail
  {
    assert (" " + tail)[1..] == tail;
  }

  lemma LexQuoted(key: Key, value: string, tail: string)
    requires '"' !in value && (tail != "" ==> !Blank(tail[0]))
    ensures LexValue(key, "\"" + value + "\"" + " " + tail) == Some(Token(key, value, tail))
  {
    var after := "\"" + value + "\"" + " " + tail;
    assert after[1..] == value + "\"" + (" " + tail);
    QuoteAt(value, " " + tail);
    assert after[1..|value| + 1] == value && after[|value| + 2..] == " " + tail;
    SkipsOneSpace(tail);
  }

  lemma LexPlain(key: Key, value: string, tail: string)
    requires value != "" && value[0] != '"' && (forall i :: 0 <= i < |value| ==> !Blank(value[i]))
    requires tail != "" ==> !Blank(tail[0])
    ensures LexValue(key, value + " " + tail) == Some(Token(key, value, tail))
  {
    var after := value + " " + tail;
    WordAt(value, tail);
    assert after[..|value|] == value && after[|value|..] == " " + tail;
    SkipsOneSpace(tail);
  }

  /** A written token is read back whole, and reading goes on right after the space that follows it. */
  lemma LexShown(w: Written, tail: string)
    requires Writable(w) && (tail != "" ==> !Blank(tail[0]))
    ensures Lex(Show(w) + tail) == Some(Token(w.key, w.value, tail))
  {
    var after := (if w.quoted then "\"" + w.value + "\"" else w.value) + " " + tail;
    assert Show(w) + tail == w.key.Name() + "=" + after;
    KeyShown(w.key, after);
    if w.quoted {
      LexQuoted(w.key, w.value, tail);
    } else {
      LexPlain(w.key, w.value, tail);
    }
  }

  lemma {:induction false} ReadShown(ws: seq<Written>, summary: string, r: Request)
    requires (forall w :: w in ws ==> Writable(w)) && Summary(summary)
    ensures Read(ShowAll(ws) + summary, r) == Read(summary, WithAll(r, ws))
    decreases |ws|
  {
    if ws == [] {
      assert ShowAll(ws) + summary == summary;
    } else {
      var tail := ShowAll(ws[1..]) + summary;
      assert ShowAll(ws) + summary == Show(ws[0]) + tail;
      assert !Blank(tail[0]);
      LexShown(ws[0], tail);
      ReadShown(ws[1..], summary, With(r, ws[0].key, ws[0].value));
    }
  }

  lemma PrefixStripped(prefix: string, tail: string)
    ensures StripPrefix(prefix + tail, prefix) == Some(tail)
  {
    assert (prefix + tail)[..|prefix|] == prefix && (prefix + tail)[|prefix|..] == tail;
  }

  lemma OneBlankTrimmed(body: string)
    requires body != "" && !IsSpace(body[0])
    ensures TrimBlanks(" " + body) == body
  {
    assert (" " + body)[1..] == body;
  }

  lemma PrintedTrimmed(body: string)
    requires body != "" && !IsSpace(body[|body| - 1])
    ensures TrimSpace(PREFIX + (" " + body)) == PREFIX + (" " + body)
  {
    var text := PREFIX + (" " + body);
    assert text[0] == '/' && text[|text| - 1] == body[|body| - 1];
    TrimmedStays(text);
  }

  lemma ShownStarts(ws: seq<Written>, summary: string)
    requires Summary(summary)
    ensures var body := ShowAll(ws) + summary; body != "" && !IsSpace(body[0]) && !IsSpace(body[|body| - 1])
  {
    if ws != [] {
      var body := ShowAll(ws) + summary;
      assert Show(ws[0])[0] == ws[0].key.Name()[0];
      assert body[0] == ws[0].key.Name()[0] && body[|body| - 1] == summary[|summary| - 1];
    }
  }

  lemma PrintedIs(ws: seq<Written>, summary: string)
    ensures Printed(ws, summary) == PREFIX + (" " + (ShowAll(ws) + summary))
  {
  }

  lemma ParseIs(text: string, rest: string)
    requires StripPrefix(TrimSpace(text), PREFIX) == Some(rest)
    ensures Parse(text) == Checked(Read(TrimBlanks(rest), BLANK_REQUEST))
  {
    hide TrimBlanks, Read, Checked, StripPrefix;
  }

  lemma ParsePrinted(ws: seq<Written>, summary: string)
    requires (forall w :: w in ws ==> Writable(w)) && Summary(summary)
    ensures Parse(Printed(ws, summary)) == Checked(Read(summary, WithAll(BLANK_REQUEST, ws)))
  {
    hide *;
    var body := ShowAll(ws) + summary;
    var text := PREFIX + (" " + body);
    ShownStarts(ws, summary);
    PrintedTrimmed(body);
    PrefixStripped(PREFIX, " " + body);
    OneBlankTrimmed(body);
    ReadShown(ws, summary, BLANK_REQUEST);
    PrintedIs(ws, summary);
    ParseIs(text, " " + body);
  }

  /** A printed command is trimmed and begins with the word and a space. */
  lemma PrintedOpens(ws: seq<Written>, summary: string)
    requires Summary(summary)
    ensures var text := Printed(ws, summary);
            TrimSpace(text) == text && |text| > 11 && text[..11] == "/commission"
  {
    ShownStarts(ws, summary);
    PrintedTrimmed(ShowAll(ws) + summary);
  }

  lemma ReadShortens(rest: string, r: Request)
    ensures |Read(rest, r).summary| <= |rest|
    decreases |rest|
  {
    TrimShortens(rest);
  }

  lemma TrimShortens(s: string)
    ensures |TrimSpace(s)| <= |s|
  {
  }

  /**
   The round trip. For any tokens, in any order and with any repetitions, and any trimmed summary that does not itself
   begin with a token, the printed command is read back as exactly its fields, or as the complaint about the field it
   lacks; and where it lacks none, only such a summary comes back.
   */
  lemma RoundTrip(ws: seq<Written>, summary: string)
    requires (forall w :: w in ws ==> Writable(w)) && Summary(summary)
    ensures var r := WithAll(BLANK_REQUEST, ws).(summary := summary);
            && (Lex(summary) == None ==>
                Parse(Printed(ws, summary)) ==
                if r.repo == "" then RepoRequired else if r.branch == "" then BranchRequired else Ok(r))
            && (r.repo != "" && r.branch != "" ==> (Parse(Printed(ws, summary)) == Ok(r) <==> Lex(summary) == None))
  {
    ParsePrinted(ws, summary);
    var r := WithAll(BLANK_REQUEST, ws);
    match Lex(summary)
    case None => TrimmedStays(summary);
    case Some(t) => ReadShortens(t.rest, With(r, t.key, t.value));
  }

  lemma WithThree(r: Request, x: Written, y: Written, z: Written)
    ensures WithAll(r, [x, y, z]) == With(With(With(r, x.key, x.value), y.key, y.value), z.key, z.value)
  {
    assert [x, y, z][1..] == [y, z] && [y, z][1..] == [z] && [z][1..] == [];
    var s := With(With(r, x.key, x.value), y.key, y.value);
    assert WithAll(s, [z]) == With(s, z.key, z.value);
  }

  /** In particular repo, branch and base come back whatever order they are written in. */
  lemma ThreeFieldsRoundTrip(repo: string, branch: string, base: string, summary: string, ws: seq<Written>)
    requires repo != "" && branch != "" && '"' !in repo && '"' !in branch && '"' !in base
    requires Summary(summary) && Lex(summary) == None
    requires |ws| == 3 && Written(Repo, repo, true) in ws && Written(Branch, branch, true) in ws
             && Written(Base, base, true) in ws
    ensures Parse(Printed(ws, summary)) == Ok(Request(repo, branch, base, summary))
  {
    var a, b, c := Written(Repo, repo, true), Written(Branch, branch, true), Written(Base, base, true);
    assert ws == [ws[0], ws[1], ws[2]];
    WithThree(BLANK_REQUEST, ws[0], ws[1], ws[2]);
    RoundTrip(ws, summary);
  }
}
