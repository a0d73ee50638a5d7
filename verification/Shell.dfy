// Quoting for the shell, undone by the quoting and token rules of sections 2.2 and 2.3 of the Shell Command Language
// volume of IEEE Std 1003.1; and the names of sandboxes.
module Shell {
  import opened Wrappers

  // ------------------------------------------------------------ the printer

  function Quoted(s: string): string {
    if s == "" then ""
    else (if s[0] == '\'' then "'\\''" else [s[0]]) + Quoted(s[1..])
  }

  function Escaped(s: string): string {
    "'" + Quoted(s) + "'"
  }

  method ShellEscape(s: string) returns (out: string)
    ensures out == Escaped(s)
  {
    out := "'";
    for i := 0 to |s|
      invariant out + Quoted(s[i..]) == "'" + Quoted(s)
    {
      var c := s[i];
      assert s[i..][1..] == s[i + 1..];
      if c == '\'' {
        out := out + "'\\''";
      } else {
        out := out + [c];
      }
    }
    out := out + "'";
  }

  // ------------------------------------------------------------ the reader

  predicate Blank(c: char) {
    c == ' ' || c == '\t'
  }

  predicate Redirects(c: char) {
    c == '<' || c == '>'
  }

  // Characters that begin an operator; a newline is one by itself.
  predicate OperatorChar(c: char) {
    Redirects(c) || c in {'&', '|', ';', '(', ')', '\n'}
  }

  predicate EndsWord(c: char) {
    Blank(c) || OperatorChar(c)
  }

  // Characters that begin a parameter, command or pathname expansion when unquoted.
  predicate Expands(c: char) {
    c in {'$', '`', '*', '?', '['}
  }

  // Characters that stand for themselves in a word without quotes.
  predicate Literal(c: char) {
    !EndsWord(c) && !Expands(c) && c !in {'\'', '"', '\\'}
  }

  // A word after quote removal and the input that follows it; None for an open quote or an expansion, which has
  // no meaning from the text alone.
  type Reading = Option<(string, string)>

  function ReadUnquoted(s: string, word: string): Reading
    decreases |s|
  {
    if s == "" || EndsWord(s[0]) then Some((word, s))
    else if s[0] == '\'' then ReadSingle(s[1..], word)
    else if s[0] == '"' then ReadDouble(s[1..], word)
    else if s[0] == '\\' then
      if |s| == 1 then None
      else if s[1] == '\n' then ReadUnquoted(s[2..], word) // a continued line
      else ReadUnquoted(s[2..], word + [s[1]])
    else if Expands(s[0]) then None
    else ReadUnquoted(s[1..], word + [s[0]])
  }

  function ReadSingle(s: string, word: string): Reading
    decreases |s|
  {
    if s == "" then None
    else if s[0] == '\'' then ReadUnquoted(s[1..], word)
    else ReadSingle(s[1..], word + [s[0]])
  }

  function ReadDouble(s: string, word: string): Reading
    decreases |s|
  {
    if s == "" || s[0] in {'$', '`'} then None
    else if s[0] == '"' then ReadUnquoted(s[1..], word)
    else if s[0] == '\\' && |s| > 1 && s[1] == '\n' then ReadDouble(s[2..], word)
    else if s[0] == '\\' && |s| > 1 && s[1] in {'$', '`', '"', '\\'} then ReadDouble(s[2..], word + [s[1]])
    else ReadDouble(s[1..], word + [s[0]])
  }

  datatype Token = Word(text: string) | Operator(symbol: string) | IoNumber(digits: string)

  const LONG_OPERATORS := {"&&", "||", ";;", "<<", ">>", "<&", ">&", "<>", ">|"}

  function OperatorAt(s: string): (op: string)
    requires s != "" && OperatorChar(s[0])
    ensures 0 < |op| <= |s|
  {
    if s[0] == '<' && |s| >= 3 && s[..3] == "<<-" then s[..3]
    else if |s| >= 2 && s[..2] in LONG_OPERATORS then s[..2]
    else s[..1]
  }

  predicate Digits(s: string) {
    forall c | c in s :: '0' <= c <= '9'
  }

  function SkipComment(s: string): (rest: string)
    ensures |rest| <= |s|
  {
    if s == "" || s[0] == '\n' then s else SkipComment(s[1..])
  }

  function Tokens(s: string): Option<seq<Token>>
    decreases |s|
  {
    if s == "" then Some([])
    else if Blank(s[0]) then Tokens(s[1..])
    else if s[0] == '#' then
      var after := SkipComment(s[1..]);
      Tokens(after)
    else if OperatorChar(s[0]) then
      var op := OperatorAt(s);
      Prepend(Operator(op), Tokens(s[|op|..]))
    else if s[0] == '~' then None // a tilde expansion
    else
      ReadingShrinks(s, "");
      match ReadUnquoted(s, "")
      case None => None
      case Some((word, rest)) =>
        var raw := s[..|s| - |rest|];
        Prepend(if rest != "" && Redirects(rest[0]) && Digits(raw) then IoNumber(raw) else Word(word), Tokens(rest))
  }

  function Prepend(t: Token, ts: Option<seq<Token>>): Option<seq<Token>> {
    if ts.None? then None else Some([t] + ts.value)
  }

  // ------------------------------------------------------------ reading only consumes

  // A reader leaves a suffix, and what it adds to the word is no longer than what it consumed.
  predicate Consumes(s: string, word: string, r: Reading) {
    r.Some? ==>
      && |r.value.1| <= |s|
      && r.value.1 == s[|s| - |r.value.1|..]
      && |r.value.0| - |word| <= |s| - |r.value.1|
  }

  predicate AllLiteral(s: string) {
    forall i | 0 <= i < |s| :: Literal(s[i])
  }

  lemma {:induction false} UnquotedConsumes(s: string, word: string)
    ensures Consumes(s, word, ReadUnquoted(s, word))
    ensures ReadUnquoted(s, word).Some? && s != "" && !EndsWord(s[0]) ==> |ReadUnquoted(s, word).value.1| < |s|
    decreases |s|
  {
    if s == "" || EndsWord(s[0]) {
    } else if s[0] == '\'' {
      SingleConsumes(s[1..], word);
    } else if s[0] == '"' {
      DoubleConsumes(s[1..], word);
    } else if s[0] == '\\' {
      if |s| > 1 {
        UnquotedConsumes(s[2..], if s[1] == '\n' then word else word + [s[1]]);
      }
    } else if !Expands(s[0]) {
      UnquotedConsumes(s[1..], word + [s[0]]);
    }
  }

  lemma {:induction false} SingleConsumes(s: string, word: string)
    ensures Consumes(s, word, ReadSingle(s, word))
    decreases |s|
  {
    if s == "" {
    } else if s[0] == '\'' {
      UnquotedConsumes(s[1..], word);
    } else {
      SingleConsumes(s[1..], word + [s[0]]);
    }
  }

  lemma {:induction false} DoubleConsumes(s: string, word: string)
    ensures Consumes(s, word, ReadDouble(s, word))
    decreases |s|
  {
    if s == "" || s[0] in {'$', '`'} {
    } else if s[0] == '"' {
      UnquotedConsumes(s[1..], word);
    } else if s[0] == '\\' && |s| > 1 && s[1] == '\n' {
      DoubleConsumes(s[2..], word);
    } else if s[0] == '\\' && |s| > 1 && s[1] in {'$', '`', '"', '\\'} {
      DoubleConsumes(s[2..], word + [s[1]]);
    } else {
      DoubleConsumes(s[1..], word + [s[0]]);
    }
  }

  lemma ReadingShrinks(s: string, word: string)
    requires s != "" && !EndsWord(s[0])
    ensures ReadUnquoted(s, word).Some? ==> |ReadUnquoted(s, word).value.1| < |s|
  {
    UnquotedConsumes(s, word);
  }

  // A word as long as its text was written without any quoting.
  lemma {:induction false} FullWordIsLiteral(s: string, word: string)
    requires ReadUnquoted(s, word).Some? && |ReadUnquoted(s, word).value.0| == |word| + |s|
    ensures AllLiteral(s)
    decreases |s|
  {
    if s != "" {
      UnquotedConsumes(s, word);
      if s[0] == '\'' {
        SingleConsumes(s[1..], word);
      } else if s[0] == '"' {
        DoubleConsumes(s[1..], word);
      } else if s[0] == '\\' {
        UnquotedConsumes(s[2..], if s[1] == '\n' then word else word + [s[1]]);
      } else {
        FullWordIsLiteral(s[1..], word + [s[0]]);
        assert forall i | 0 < i < |s| :: s[i] == s[1..][i - 1];
      }
    }
  }

  lemma {:induction false} LiteralReads(s: string, rest: string, word: string)
    requires AllLiteral(s)
    ensures ReadUnquoted(s + rest, word) == ReadUnquoted(rest, word + s)
    decreases |s|
  {
    if s == "" {
      assert s + rest == rest && word + s == word;
    } else {
      assert Literal(s[0]) && (s + rest)[0] == s[0];
      assert (s + rest)[1..] == s[1..] + rest && word + [s[0]] + s[1..] == word + s;
      LiteralReads(s[1..], rest, word + [s[0]]);
    }
  }

  // ------------------------------------------------------------ the round trip

  // Closing the quotes, an escaped quote, and opening them again.
  lemma QuoteReads(rest: string, word: string)
    ensures ReadSingle("'\\''" + rest, word) == ReadSingle(rest, word + "'")
  {
    var open := "'" + rest;
    var escaped := "\\'" + open;
    assert "'\\''" + rest == "'" + escaped;
    assert ("'" + escaped)[1..] == escaped && escaped[2..] == open && open[1..] == rest;
    assert ReadUnquoted(open, word + "'") == ReadSingle(rest, word + "'");
    assert ReadUnquoted(escaped, word) == ReadUnquoted(open, word + "'");
  }

  lemma {:induction false} QuotedReads(s: string, rest: string, word: string)
    ensures ReadSingle(Quoted(s) + "'" + rest, word) == ReadUnquoted(rest, word + s)
    decreases |s|
  {
    var text := Quoted(s) + "'" + rest;
    if s == "" {
      assert text[1..] == rest && word + s == word;
    } else {
      var tail := Quoted(s[1..]) + "'" + rest;
      assert word + [s[0]] + s[1..] == word + s;
      QuotedReads(s[1..], rest, word + [s[0]]);
      if s[0] == '\'' {
        QuoteReads(tail, word);
        assert text == "'\\''" + tail;
      } else {
        assert text[0] == s[0] && text[1..] == tail;
      }
    }
  }

  // Whatever precedes it in the word and whatever follows, an escaped string contributes exactly itself.
  lemma EscapedReads(s: string, rest: string, word: string)
    ensures ReadUnquoted(Escaped(s) + rest, word) == ReadUnquoted(rest, word + s)
  {
    assert (Escaped(s) + rest)[1..] == Quoted(s) + "'" + rest;
    QuotedReads(s, rest, word);
  }

  // Alone or before a blank or an operator, an escaped string is exactly one word, equal to the string.
  lemma EscapedIsOneWord(s: string, rest: string)
    requires rest == "" || EndsWord(rest[0])
    ensures ReadUnquoted(Escaped(s) + rest, "") == Some((s, rest))
    ensures Tokens(Escaped(s) + rest) == Prepend(Word(s), Tokens(rest))
  {
    EscapedReads(s, rest, "");
    assert "" + s == s;
    var text := Escaped(s) + rest;
    assert text[0] == '\'' && text[..|text| - |rest|] == Escaped(s);
    assert !Digits(Escaped(s)) by {
      assert Escaped(s)[0] == '\'' && '\'' in Escaped(s);
    }
  }

  lemma EscapeIsInjective(a: string, b: string)
    requires Escaped(a) == Escaped(b)
    ensures a == b
  {
    EscapedIsOneWord(a, "");
    EscapedIsOneWord(b, "");
    assert Escaped(a) + "" == Escaped(b) + "";
  }

  // ------------------------------------------------------------ sandbox names

  function NoDashes(s: string): string {
    if s == "" then ""
    else (if s[0] == '-' then "" else [s[0]]) + NoDashes(s[1..])
  }

  function LimaSandboxName(bookingId: string): string {
    "claw-" + NoDashes(bookingId)
  }

  function ConfigPath(bookingId: string): string {
    "/tmp/" + LimaSandboxName(bookingId) + ".json"
  }

  // The layout of section 4 of RFC 9562 in lower case.
  predicate CanonicalId(id: string) {
    |id| == 36 && forall i | 0 <= i < 36 :: if i in {8, 13, 18, 23} then id[i] == '-' else HexDigit(id[i])
  }

  predicate HexDigit(c: char) {
    '0' <= c <= '9' || 'a' <= c <= 'f'
  }

  lemma {:induction false} NoDashesAppend(a: string, b: string)
    ensures NoDashes(a + b) == NoDashes(a) + NoDashes(b)
    decreases |a|
  {
    if a == "" {
      assert a + b == b;
    } else {
      assert (a + b)[0] == a[0] && (a + b)[1..] == a[1..] + b;
      NoDashesAppend(a[1..], b);
    }
  }

  lemma {:induction false} NoDashesOfHex(a: string)
    requires forall c | c in a :: HexDigit(c)
    ensures NoDashes(a) == a
    decreases |a|
  {
    if a != "" {
      assert a == [a[0]] + a[1..] && HexDigit(a[0]);
      NoDashesOfHex(a[1..]);
    }
  }

  lemma NoDashesSplit(a: string, b: string)
    requires forall c | c in a :: HexDigit(c)
    ensures NoDashes(a + "-" + b) == a + NoDashes(b)
  {
    assert a + "-" + b == a + ("-" + b) && ("-" + b)[1..] == b;
    NoDashesAppend(a, "-" + b);
    NoDashesOfHex(a);
  }

  function WithDashes(hex: string): string
    requires |hex| == 32
  {
    hex[..8] + "-" + hex[8..12] + "-" + hex[12..16] + "-" + hex[16..20] + "-" + hex[20..]
  }

  lemma SegmentsRestored(a: string, b: string, c: string, d: string, e: string)
    requires |a| == 8 && |b| == |c| == |d| == 4 && |e| == 12
    ensures WithDashes(a + (b + (c + (d + e)))) == a + "-" + (b + "-" + (c + "-" + (d + "-" + e)))
  {
    var hex := a + (b + (c + (d + e)));
    assert hex[..8] == a && hex[8..12] == b && hex[12..16] == c && hex[16..20] == d && hex[20..] == e;
  }

  lemma SegmentsStripped(a: string, b: string, c: string, d: string, e: string)
    requires forall x | x in a + b + c + d + e :: HexDigit(x)
    ensures NoDashes(a + "-" + (b + "-" + (c + "-" + (d + "-" + e)))) == a + (b + (c + (d + e)))
  {
    NoDashesSplit(a, b + "-" + (c + "-" + (d + "-" + e)));
    NoDashesSplit(b, c + "-" + (d + "-" + e));
    NoDashesSplit(c, d + "-" + e);
    NoDashesSplit(d, e);
    NoDashesOfHex(e);
  }

  lemma SegmentsOf(id: string)
    requires CanonicalId(id)
    ensures id == id[..8] + "-" + (id[9..13] + "-" + (id[14..18] + "-" + (id[19..23] + "-" + id[24..])))
    ensures forall x | x in id[..8] + id[9..13] + id[14..18] + id[19..23] + id[24..] :: HexDigit(x)
  {
    assert id[19..] == id[19..23] + "-" + id[24..];
    assert id[14..] == id[14..18] + "-" + id[19..];
    assert id[9..] == id[9..13] + "-" + id[14..];
    assert id == id[..8] + "-" + id[9..];
  }

  // The dashes of a canonical id can be put back.
  lemma DashesRestored(id: string)
    requires CanonicalId(id)
    ensures |NoDashes(id)| == 32 && WithDashes(NoDashes(id)) == id
    ensures forall c | c in NoDashes(id) :: HexDigit(c)
  {
    var a, b, c, d, e := id[..8], id[9..13], id[14..18], id[19..23], id[24..];
    SegmentsOf(id);
    SegmentsStripped(a, b, c, d, e);
    SegmentsRestored(a, b, c, d, e);
  }

  // The number of characters other than a dash among the first i.
  function Kept(s: string, i: nat): nat
    requires i <= |s|
  {
    if i == 0 then 0 else Kept(s, i - 1) + (if s[i - 1] != '-' then 1 else 0)
  }

  lemma {:induction false} KeptShift(s: string, i: nat)
    requires 0 < i <= |s|
    ensures Kept(s, i) == (if s[0] != '-' then 1 else 0) + Kept(s[1..], i - 1)
    decreases i
  {
    if i > 1 {
      KeptShift(s, i - 1);
    } else {
      assert Kept(s, 0) == 0;
    }
  }

  // For every id, exactly the characters other than dashes are kept, in order.
  lemma {:induction false} OnlyDashesGo(s: string, i: nat)
    requires i <= |s|
    ensures |NoDashes(s)| == Kept(s, |s|)
    ensures Kept(s, i) <= |NoDashes(s)|
    ensures i < |s| && s[i] != '-' ==> Kept(s, i) < |NoDashes(s)| && NoDashes(s)[Kept(s, i)] == s[i]
    decreases |s|
  {
    if s != "" {
      KeptShift(s, |s|);
      OnlyDashesGo(s[1..], if i == 0 then 0 else i - 1);
      if i > 0 {
        KeptShift(s, i);
      }
    }
  }

  // The name and the path of a canonical id.
  lemma CanonicalNames(id: string)
    requires CanonicalId(id)
    ensures var hex := id[..8] + (id[9..13] + (id[14..18] + (id[19..23] + id[24..])));
            && LimaSandboxName(id) == "claw-" + hex
            && ConfigPath(id) == "/tmp/" + ("claw-" + hex) + ".json"
  {
    SegmentsOf(id);
    SegmentsStripped(id[..8], id[9..13], id[14..18], id[19..23], id[24..]);
  }

  lemma NamesNeverCollide(a: string, b: string)
    requires CanonicalId(a) && CanonicalId(b)
    ensures LimaSandboxName(a) == LimaSandboxName(b) <==> a == b
    ensures ConfigPath(a) == ConfigPath(b) <==> a == b
  {
    DashesRestored(a);
    DashesRestored(b);
    NamesAreDashless(a, b);
  }

  // Two names or paths are the same exactly when the ids are the same without their dashes.
  lemma NamesAreDashless(a: string, b: string)
    ensures LimaSandboxName(a) == LimaSandboxName(b) <==> NoDashes(a) == NoDashes(b)
    ensures ConfigPath(a) == ConfigPath(b) <==> NoDashes(a) == NoDashes(b)
  {
    assert LimaSandboxName(a)[5..] == NoDashes(a) && LimaSandboxName(b)[5..] == NoDashes(b);
    assert ConfigPath(a)[10..|ConfigPath(a)| - 5] == NoDashes(a);
    assert ConfigPath(b)[10..|ConfigPath(b)| - 5] == NoDashes(b);
  }

  // ------------------------------------------------------------ the command that writes a sandbox's configuration

  function WriteCommand(config: string, path: string): string {
    "echo " + Escaped(config) + " > " + path
  }

  // For every configuration, the command reads as echo, the configuration itself, and a redirection to the path.
  lemma CommandTokens(config: string, path: string)
    ensures Tokens(WriteCommand(config, path)) ==
            Prepend(Word("echo"), Prepend(Word(config), Prepend(Operator(">"), Tokens(path))))
  {
    var argument := Escaped(config) + (" > " + path);
    assert WriteCommand(config, path) == "echo" + (" " + argument);
    EchoToken(" " + argument);
    BlankSkipped(argument);
    EscapedIsOneWord(config, " > " + path);
    RedirectionTokens(path);
  }

  lemma BlankSkipped(rest: string)
    ensures Tokens(" " + rest) == Tokens(rest)
  {
    assert (" " + rest)[1..] == rest;
  }

  lemma RedirectionTokens(path: string)
    ensures Tokens(" > " + path) == Prepend(Operator(">"), Tokens(path))
  {
    var redirection := "> " + path;
    assert " > " + path == " " + redirection;
    BlankSkipped(redirection);
    assert redirection[1] == ' ' && OperatorAt(redirection) == redirection[..1] == ">";
    assert redirection[1..] == " " + path;
    BlankSkipped(path);
  }

  lemma EchoToken(rest: string)
    requires rest != "" && Blank(rest[0])
    ensures Tokens("echo" + rest) == Prepend(Word("echo"), Tokens(rest))
  {
    FixedPartsAreLiteral();
    LiteralReads("echo", rest, "");
    assert ("echo" + rest)[0] == 'e' && "" + "echo" == "echo";
  }

  // An unquoted path is one word equal to itself exactly when every character of it stands for itself.
  lemma PathIsOneWordIff(path: string)
    requires path != "" && path[0] == '/'
    ensures Tokens(path) == Some([Word(path)]) <==> AllLiteral(path)
  {
    if AllLiteral(path) {
      LiteralReads(path, "", "");
      assert path + "" == path && "" + path == path && ReadUnquoted(path, "") == Some((path, ""));
      assert Tokens(path) == Prepend(Word(path), Tokens("")) && [Word(path)] + [] == [Word(path)];
    } else if Tokens(path) == Some([Word(path)]) {
      assert Tokens(path).value[0] == Word(path);
      FullWordIsLiteral(path, "");
    }
  }

  // The shell reads: echo, the configuration as it is, and a redirection to this very path.
  predicate WritesTo(config: string, path: string) {
    Tokens(WriteCommand(config, path)) == Some([Word("echo"), Word(config), Operator(">"), Word(path)])
  }

  lemma WrittenIff(config: string, path: string)
    requires path != "" && path[0] == '/'
    ensures WritesTo(config, path) <==> AllLiteral(path)
  {
    CommandTokens(config, path);
    PrependTail(config, Tokens(path), path);
    PathIsOneWordIff(path);
  }

  lemma CanonicalIsLiteral(hex: string)
    requires forall c | c in hex :: HexDigit(c)
    ensures AllLiteral(hex)
  {
    forall i | 0 <= i < |hex| ensures Literal(hex[i]) {
      assert hex[i] in hex;
    }
  }

  lemma LiteralAppend(a: string, b: string)
    ensures AllLiteral(a + b) <==> AllLiteral(a) && AllLiteral(b)
  {
    assert forall i | 0 <= i < |a| :: a[i] == (a + b)[i];
    assert forall i | 0 <= i < |b| :: b[i] == (a + b)[|a| + i];
  }

  lemma PathIsLiteral(bookingId: string)
    ensures AllLiteral(ConfigPath(bookingId)) <==> AllLiteral(NoDashes(bookingId))
  {
    var name := LimaSandboxName(bookingId);
    LiteralAppend("/tmp/" + name, ".json");
    LiteralAppend("/tmp/", name);
    LiteralAppend("claw-", NoDashes(bookingId));
    FixedPartsAreLiteral();
  }

  lemma FixedPartsAreLiteral()
    ensures AllLiteral("/tmp/") && AllLiteral("claw-") && AllLiteral(".json") && AllLiteral("echo")
  {
    var letters := {'/', 't', 'm', 'p', 'c', 'l', 'a', 'w', '-', '.', 'j', 's', 'o', 'n', 'e', 'h'};
    assert forall c | c in letters :: Literal(c);
  }

  lemma PrependTail(config: string, ts: Option<seq<Token>>, path: string)
    ensures Prepend(Word("echo"), Prepend(Word(config), Prepend(Operator(">"), ts)))
            == Some([Word("echo"), Word(config), Operator(">"), Word(path)])
            <==> ts == Some([Word(path)])
  {
    if ts.Some? {
      var all := [Word("echo")] + ([Word(config)] + ([Operator(">")] + ts.value));
      assert all[3..] == ts.value;
      assert [Word("echo"), Word(config), Operator(">"), Word(path)][3..] == [Word(path)];
      assert ts.value == [Word(path)] ==> all == [Word("echo"), Word(config), Operator(">"), Word(path)];
    }
  }

  // The configuration lands in the sandbox's own file exactly when the id without its dashes is free of characters
  // the shell treats specially; every canonical id is.
  lemma ConfigWrittenIff(config: string, bookingId: string)
    ensures WritesTo(config, ConfigPath(bookingId)) <==> AllLiteral(NoDashes(bookingId))
    ensures CanonicalId(bookingId) ==> AllLiteral(NoDashes(bookingId))
  {
    assert ConfigPath(bookingId)[0] == '/';
    WrittenIff(config, ConfigPath(bookingId));
    PathIsLiteral(bookingId);
    if CanonicalId(bookingId) {
      DashesRestored(bookingId);
      CanonicalIsLiteral(NoDashes(bookingId));
    }
  }
}
