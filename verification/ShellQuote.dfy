/**
  Shell quoting, the command tokenizer and hook substitution, and how they undo each other
  (internal/app/app.go:2566-2582, internal/filechanges/shell.go:154-243,
  internal/hooks/manager.go:485-529).
*/
module ShellQuote {
  // ---------- quoting ----------

  /** The text between the outer quotes: a single quote leaves them, is itself double-quoted, and
      enters them again. */
  function Body(value: string): string {
    if value == "" then ""
    else (if value[0] == '\'' then "'\"'\"'" else [value[0]]) + Body(value[1..])
  }

  /** quoteShellArgument. */
  function Quote(value: string): string {
    "'" + Body(value) + "'"
  }

  // ---------- the tokenizer ----------

  datatype Quoting = Unquoted | Quoted(mark: char)

  datatype State = State(tokens: seq<string>, current: string, quote: Quoting, escaping: bool, expectTarget: bool)

  const START := State([], "", Unquoted, false, false)

  function Flush(s: State): State {
    if s.current == "" then s else s.(tokens := s.tokens + [s.current], current := "", expectTarget := false)
  }

  function Add(s: State, c: char): State {
    s.(current := s.current + [c])
  }

  /** readShellOutputRedirect at the start of the text: the redirect operator, or nothing. */
  function Redirect(text: string): (r: string)
    ensures |r| <= |text|
  {
    if text == "" then ""
    else
      var start := if '0' <= text[0] <= '9' || text[0] == '&' then 1 else 0;
      if start >= |text| || text[start] != '>' then ""
      else if start + 1 < |text| && (text[start + 1] == '>' || text[start + 1] == '|') then text[..start + 2]
      else text[..start + 1]
  }

  predicate IsBlank(c: char) {
    c == ' ' || c == '\t' || c == '\n' || c == '\r'
  }

  predicate IsSeparator(c: char) {
    c == ';' || c == '|' || c == '&'
  }

  /** One turn of the loop: the new state and how many characters it used. */
  function Step(text: string, s: State): (r: (State, nat))
    requires text != ""
    ensures 0 < r.1 <= |text|
  {
    var c := text[0];
    if s.escaping then (Add(s, c).(escaping := false), 1)
    else if c == '\\' && s.quote != Quoted('\'') then (s.(escaping := true), 1)
    else if s.quote.Quoted? then ((if c == s.quote.mark then s.(quote := Unquoted) else Add(s, c)), 1)
    else if c == '\'' || c == '"' then (s.(quote := Quoted(c)), 1)
    else if IsBlank(c) then (Flush(s), 1)
    else if Redirect(text) != "" then
      var t := Flush(s);
      (t.(tokens := t.tokens + [Redirect(text)], expectTarget := true), |Redirect(text)|)
    else if c == '&' && s.expectTarget && s.current == "" then (Add(s, c), 1)
    else if IsSeparator(c) then (Flush(s).(expectTarget := false), 1)
    else (Add(s, c), 1)
  }

  /** The state once the whole text was read. */
  function Scan(text: string, s: State): State
    decreases |text|
  {
    if text == "" then s else Scan(text[Step(text, s).1..], Step(text, s).0)
  }

  function Tokens(command: string): seq<string> {
    Flush(Scan(command, START)).tokens
  }

  /** One turn of tokenizeShellCommand's loop. */
  method Turn(text: string, s0: State) returns (s: State, used: nat)
    requires text != ""
    ensures (s, used) == Step(text, s0)
  {
    var c := text[0];
    s, used := s0, 1;
    if s.escaping {
      s := Add(s, c).(escaping := false);
    } else if c == '\\' && s.quote != Quoted('\'') {
      s := s.(escaping := true);
    } else if s.quote.Quoted? {
      if c == s.quote.mark {
        s := s.(quote := Unquoted);
      } else {
        s := Add(s, c);
      }
    } else if c == '\'' || c == '"' {
      s := s.(quote := Quoted(c));
    } else if IsBlank(c) {
      s := Flush(s);
    } else {
      var redirect := Redirect(text);
      if redirect != "" {
        s := Flush(s);
        s := s.(tokens := s.tokens + [redirect], expectTarget := true);
        used := |redirect|;
      } else if c == '&' && s.expectTarget && s.current == "" {
        s := Add(s, c);
      } else if IsSeparator(c) {
        s := Flush(s).(expectTarget := false);
      } else {
        s := Add(s, c);
      }
    }
  }

  /** A turn at position `i` of the command. */
  method Advance(command: string, i: nat, s0: State) returns (s: State, next: nat)
    requires i < |command|
    ensures i < next <= |command| && Scan(command[i..], s0) == Scan(command[next..], s)
  {
    var used;
    s, used := Turn(command[i..], s0);
    next := i + used;
    ScanStep(command[i..], s0, command[next..], used);
  }

  lemma ScanStep(text: string, s: State, rest: string, used: nat)
    requires text != "" && Step(text, s).1 == used && text[used..] == rest
    ensures Scan(text, s) == Scan(rest, Step(text, s).0)
  {
  }

  /** tokenizeShellCommand. */
  method Tokenize(command: string) returns (tokens: seq<string>)
    ensures tokens == Tokens(command)
  {
    var s := START;
    var i := 0;
    while i < |command|
      invariant 0 <= i <= |command| && Scan(command, START) == Scan(command[i..], s)
    {
      s, i := Advance(command, i, s);
    }
    assert command[i..] == "";
    s := Flush(s);
    tokens := s.tokens;
  }

  // ---------- outside quotes ----------

  predicate IsDigit(c: char) {
    '0' <= c <= '9'
  }

  /** The end of `a` and the start of `rest` may make one redirect operator. */
  predicate Joins(a: string, rest: string) {
    && a != "" && rest != ""
    && (|| (rest[0] == '>' && (IsDigit(a[|a| - 1]) || a[|a| - 1] == '&' || a[|a| - 1] == '>'))
        || (rest[0] == '|' && a[|a| - 1] == '>'))
  }

  lemma StepLocal(text: string, rest: string, s: State)
    requires text != "" && !Joins(text, rest)
    ensures Step(text + rest, s) == Step(text, s)
  {
    RedirectLocal(text, rest);
  }

  lemma RedirectLocal(text: string, rest: string)
    requires text != "" && !Joins(text, rest)
    ensures Redirect(text + rest) == Redirect(text)
  {
    assert forall k :: 0 <= k <= |text| ==> (text + rest)[..k] == text[..k];
  }

  /** Reading a text is reading its parts, unless an operator lies across. */
  lemma {:induction false} ScanSplits(a: string, rest: string, s: State)
    requires !Joins(a, rest)
    ensures Scan(a + rest, s) == Scan(rest, Scan(a, s))
    decreases |a|
  {
    if a == "" {
      assert a + rest == rest;
    } else {
      var used := Step(a, s).1;
      StepLocal(a, rest, s);
      assert (a + rest)[used..] == a[used..] + rest;
      ScanSplits(a[used..], rest, Step(a, s).0);
    }
  }

  function After(tokens: seq<string>, s: State): State {
    s.(tokens := tokens + s.tokens)
  }

  lemma StepAfter(text: string, tokens: seq<string>, s: State)
    requires text != ""
    ensures Step(text, After(tokens, s)) == (After(tokens, Step(text, s).0), Step(text, s).1)
  {
    var flushed := Flush(s);
    Associate(tokens, s.tokens, [s.current]);
    assert Flush(After(tokens, s)) == After(tokens, flushed);
    Associate(tokens, flushed.tokens, [Redirect(text)]);
  }

  /** The tokens read so far do not change how the rest is read. */
  lemma {:induction false} ScanAfter(text: string, tokens: seq<string>, s: State)
    ensures Scan(text, After(tokens, s)) == After(tokens, Scan(text, s))
    decreases |text|
  {
    if text != "" {
      StepAfter(text, tokens, s);
      ScanAfter(text[Step(text, s).1..], tokens, Step(text, s).0);
    }
  }

  lemma TokensAfter(text: string, tokens: seq<string>)
    ensures Flush(Scan(text, START.(tokens := tokens))).tokens == tokens + Tokens(text)
  {
    assert tokens + START.tokens == tokens;
    ScanAfter(text, tokens, START);
    var end := Scan(text, START);
    Associate(tokens, end.tokens, [end.current]);
  }

  /** The command ends outside quotes, escapes and redirects without a target. */
  predicate Settled(command: string) {
    var end := Scan(command, START);
    end.quote == Unquoted && !end.escaping && (end.expectTarget ==> end.current != "")
  }

  /** Outside quotes a blank separates commands' words: the tokens are those of both sides. */
  lemma BlankSplits(a: string, c: char, b: string)
    requires Settled(a) && IsBlank(c)
    ensures Tokens(a + [c] + b) == Tokens(a) + Tokens(b)
  {
    assert a + [c] + b == a + ([c] + b);
    ScanSplits(a, [c] + b, START);
    ScanChar(c, b, Scan(a, START));
    assert Flush(Scan(a, START)) == START.(tokens := Tokens(a));
    TokensAfter(b, Tokens(a));
  }

  lemma SeparatorStep(c: char, b: string, s: State)
    requires s.quote == Unquoted && !s.escaping && (s.expectTarget ==> s.current != "") && c in {';', '|', '&'}
    requires c == '&' ==> b == "" || b[0] != '>'
    ensures Step([c] + b, s) == (Flush(s).(expectTarget := false), 1)
  {
    assert Redirect([c] + b) == "";
  }

  /** Outside quotes so does a separator, which is no token itself; but an ampersand makes an operator with
      a following `>`, and a bar with a `>` before it. */
  lemma SeparatorSplits(a: string, c: char, b: string)
    requires Settled(a) && c in {';', '|', '&'}
    requires c == '|' ==> a == "" || a[|a| - 1] != '>'
    requires c == '&' ==> b == "" || b[0] != '>'
    ensures Tokens(a + [c] + b) == Tokens(a) + Tokens(b)
  {
    assert a + [c] + b == a + ([c] + b);
    ScanSplits(a, [c] + b, START);
    SeparatorStep(c, b, Scan(a, START));
    ScanChar(c, b, Scan(a, START));
    assert Flush(Scan(a, START)).(expectTarget := false) == START.(tokens := Tokens(a));
    TokensAfter(b, Tokens(a));
  }

  predicate IsOperator(op: string) {
    || op in {">", ">>", ">|", "&>", "&>>", "&>|"}
    || (|op| in {2, 3} && IsDigit(op[0]) && op[1..] in {">", ">>", ">|"})
  }

  /** Stands for itself in a word: not a blank, a separator, an operator, a quote or an escape. */
  predicate IsPlain(c: char) {
    !IsBlank(c) && !IsSeparator(c) && c !in {'>', '\\', '\'', '"'}
  }

  predicate PlainWord(word: string) {
    forall i :: 0 <= i < |word| ==> IsPlain(word[i])
  }

  lemma {:induction false} PlainScan(word: string, rest: string, s: State)
    requires s.quote == Unquoted && !s.escaping && PlainWord(word) && (rest == "" || rest[0] != '>')
    ensures Scan(word + rest, s) == Scan(rest, s.(current := s.current + word))
  {
    if word == "" {
      assert word + rest == rest && s.current + word == s.current;
    } else {
      Shift(s.current, word, rest);
      var more := word[1..] + rest;
      assert more == "" || more[0] != '>';
      assert Redirect([word[0]] + more) == "";
      ScanChar(word[0], more, s);
      PlainScan(word[1..], rest, Add(s, word[0]));
    }
  }

  lemma OperatorScan(op: string, rest: string, s: State)
    requires s.quote == Unquoted && !s.escaping && IsOperator(op) && (rest == "" || rest[0] !in {'>', '|'})
    ensures Scan(op + rest, s) == Scan(rest, Flush(s).(tokens := Flush(s).tokens + [op], expectTarget := true))
  {
    assert Redirect(op) == op;
    RedirectLocal(op, rest);
    assert (op + rest)[|op|..] == rest;
    ScanStep(op + rest, s, rest, |op|);
  }

  /** The target of a redirect: a plain word, which may begin with an ampersand, as in `2>&1`. */
  predicate IsTarget(target: string) {
    target != "" && (PlainWord(target) || (target[0] == '&' && PlainWord(target[1..])))
  }

  lemma AmpersandStep(more: string, s: State)
    requires s.quote == Unquoted && !s.escaping && s.current == "" && s.expectTarget && (more == "" || more[0] != '>')
    ensures Step(['&'] + more, s) == (Add(s, '&'), 1)
  {
    assert Redirect(['&'] + more) == "";
  }

  lemma AmpersandScan(word: string, rest: string, s: State)
    requires s.quote == Unquoted && !s.escaping && s.current == "" && s.expectTarget && PlainWord(word)
    requires rest == "" || rest[0] != '>'
    ensures Scan(['&'] + (word + rest), s) == Scan(rest, s.(current := ['&'] + word))
  {
    var more := word + rest;
    assert more == "" || more[0] != '>' by {
      if word != "" {
        assert more[0] == word[0] && IsPlain(word[0]);
      } else {
        assert more == rest;
      }
    }
    AmpersandStep(more, s);
    ScanChar('&', more, s);
    PlainScan(word, rest, Add(s, '&'));
    assert Add(s, '&').current == ['&'];
  }

  lemma FirstApart(target: string, rest: string)
    requires target != ""
    ensures target + rest == [target[0]] + (target[1..] + rest) && [target[0]] + target[1..] == target
  {
  }

  lemma TargetScan(target: string, rest: string, s: State)
    requires s.quote == Unquoted && !s.escaping && s.current == "" && s.expectTarget && IsTarget(target)
    requires rest == "" || rest[0] != '>'
    ensures Scan(target + rest, s) == Scan(rest, s.(current := target))
  {
    FirstApart(target, rest);
    if target[0] == '&' {
      AmpersandScan(target[1..], rest, s);
    } else {
      PlainTargetScan(target, rest, s);
    }
  }

  lemma PlainTargetScan(word: string, rest: string, s: State)
    requires s.quote == Unquoted && !s.escaping && s.current == "" && PlainWord(word)
    requires rest == "" || rest[0] != '>'
    ensures Scan(word + rest, s) == Scan(rest, s.(current := word))
  {
    assert s.current + word == word;
    PlainScan(word, rest, s);
  }

  /** Outside quotes a redirect operator ends the word before it and is a token of its own, and its target
      is the next token, even one that begins with an ampersand. */
  lemma RedirectSplits(a: string, op: string, target: string, b: string)
    requires Settled(a) && !Joins(a, op) && IsOperator(op) && IsTarget(target)
    ensures Tokens(a + op + target + " " + b) == Tokens(a) + [op, target] + Tokens(b)
  {
    var rest := " " + b;
    var tail := target + rest;
    assert a + op + target + " " + b == a + (op + tail);
    assert !Joins(a, op + tail);
    ScanSplits(a, op + tail, START);
    var end := Scan(a, START);
    OperatorScan(op, tail, end);
    var waiting := Flush(end).(tokens := Tokens(a) + [op], expectTarget := true);
    TargetScan(target, rest, waiting);
    ScanChar(' ', b, waiting.(current := target));
    Associate(Tokens(a), [op], [target]);
    assert [op] + [target] == [op, target];
    TokensAfter(b, Tokens(a) + [op, target]);
  }

  // ---------- quoting and tokenizing ----------

  /** Outside quotes and escapes, with nothing else special about it. */
  predicate Open(s: State) {
    s.quote == Unquoted && !s.escaping
  }

  lemma ScanChar(c: char, rest: string, s: State)
    requires Step([c] + rest, s).1 == 1
    ensures Scan([c] + rest, s) == Scan(rest, Step([c] + rest, s).0)
  {
    assert ([c] + rest)[1..] == rest;
    ScanStep([c] + rest, s, rest, 1);
  }

  /** Inside single quotes the body of a value adds the value. */
  lemma {:induction false} BodyScan(value: string, rest: string, s: State)
    requires s.quote == Quoted('\'') && !s.escaping
    ensures Scan(Body(value) + rest, s) == Scan(rest, s.(current := s.current + value))
  {
    if value == "" {
      assert Body(value) + rest == rest;
      assert s.current + value == s.current;
    } else {
      var c, more := value[0], Body(value[1..]) + rest;
      var t := Add(s, c);
      BodyScan(value[1..], rest, t);
      Shift(s.current, value, rest);
      if c == '\'' {
        QuoteCharScan(more, s);
        assert Body(value) + rest == "'\"'\"'" + more;
      } else {
        assert Body(value) + rest == [c] + more;
        ScanChar(c, more, s);
      }
    }
  }

  /** A single quote on its way out of the quotes and back in. */
  lemma QuoteCharScan(more: string, s: State)
    requires s.quote == Quoted('\'') && !s.escaping
    ensures Scan("'\"'\"'" + more, s) == Scan(more, Add(s, '\''))
  {
    var s1 := s.(quote := Unquoted);
    var s2 := s.(quote := Quoted('"'));
    var s3 := Add(s2, '\'');
    var s4 := s3.(quote := Unquoted);
    var m4 := ['\''] + more;
    var m3 := ['"'] + m4;
    var m2 := ['\''] + m3;
    var m1 := ['"'] + m2;
    assert "'\"'\"'" + more == ['\''] + m1;
    ScanChar('\'', m1, s);
    ScanChar('"', m2, s1);
    ScanChar('\'', m3, s2);
    ScanChar('"', m4, s3);
    ScanChar('\'', more, s4);
  }

  /** A quoted value adds the value to the word, whatever is in it. */
  lemma QuoteScan(value: string, rest: string, s: State)
    requires Open(s)
    ensures Scan(Quote(value) + rest, s) == Scan(rest, s.(current := s.current + value))
  {
    var inside := s.(quote := Quoted('\''));
    var closing := ['\''] + rest;
    assert Quote(value) + rest == ['\''] + (Body(value) + closing);
    ScanChar('\'', Body(value) + closing, s);
    BodyScan(value, closing, inside);
    ScanChar('\'', rest, inside.(current := inside.current + value));
  }

  /** The words, quoted and joined by spaces. */
  function Line(words: seq<string>): string {
    if words == [] then "" else Quote(words[0]) + (if |words| == 1 then "" else " " + Line(words[1..]))
  }

  function NonEmpty(words: seq<string>): seq<string> {
    if words == [] then [] else (if words[0] == "" then [] else [words[0]]) + NonEmpty(words[1..])
  }

  lemma QuotedThenBlank(word: string, rest: string, s: State)
    requires Open(s) && s.current == ""
    ensures Scan(Quote(word) + (" " + rest), s) == Scan(rest, Flush(s.(current := word)))
  {
    QuoteScan(word, " " + rest, s);
    assert s.current + word == word;
    ScanChar(' ', rest, s.(current := word));
  }

  lemma FlushWord(words: seq<string>, s: State)
    requires words != [] && Open(s) && s.current == ""
    ensures Open(Flush(s.(current := words[0]))) && Flush(s.(current := words[0])).current == ""
    ensures Flush(s.(current := words[0])).tokens + NonEmpty(words[1..]) == s.tokens + NonEmpty(words)
  {
    TokensRegroup(s.tokens, words[0], NonEmpty(words[1..]));
  }

  lemma TokensRegroup(tokens: seq<string>, word: string, more: seq<string>)
    ensures (if word == "" then tokens else tokens + [word]) + more == tokens + ((if word == "" then [] else [word]) + more)
  {
    if word == "" {
      assert [] + more == more;
    } else {
      Associate(tokens, [word], more);
    }
  }

  lemma Associate(a: seq<string>, b: seq<string>, c: seq<string>)
    ensures a + b + c == a + (b + c)
  {
  }

  lemma {:induction false} LineScan(words: seq<string>, s: State)
    requires Open(s) && s.current == ""
    ensures Flush(Scan(Line(words), s)).tokens == s.tokens + NonEmpty(words)
    decreases |words|
  {
    if words == [] {
    } else {
      FirstWordScan(words, s);
      FlushWord(words, s);
      LineScan(words[1..], Flush(s.(current := words[0])));
    }
  }

  /** The first word is a token of its own, unless it is empty. */
  lemma FirstWordScan(words: seq<string>, s: State)
    requires Open(s) && s.current == "" && words != []
    ensures Flush(Scan(Line(words), s)) == Flush(Scan(Line(words[1..]), Flush(s.(current := words[0]))))
  {
    if |words| == 1 {
      QuoteScan(words[0], "", s);
      assert Quote(words[0]) + "" == Line(words);
      assert s.current + words[0] == words[0];
      assert Line(words[1..]) == "";
    } else {
      assert Line(words) == Quote(words[0]) + (" " + Line(words[1..]));
      QuotedThenBlank(words[0], Line(words[1..]), s);
    }
  }

  /** Tokenizing quoted words gives the words back, but for empty ones, which are lost. */
  lemma TokensOfLine(words: seq<string>)
    ensures Tokens(Line(words)) == NonEmpty(words)
  {
    LineScan(words, START);
  }

  lemma {:induction false} NonEmptyLength(words: seq<string>)
    ensures |NonEmpty(words)| <= |words|
    ensures |NonEmpty(words)| == |words| <==> "" !in words
    ensures "" !in words ==> NonEmpty(words) == words
  {
    if words != [] {
      NonEmptyLength(words[1..]);
      assert words == [words[0]] + words[1..];
    }
  }

  /** Quoting and tokenizing undo each other exactly when no word is empty. */
  lemma QuotingRoundTrips(words: seq<string>)
    ensures Tokens(Line(words)) == words <==> "" !in words
  {
    TokensOfLine(words);
    NonEmptyLength(words);
  }

  /** An escaped character stands for itself, unless it is in single quotes. */
  lemma EscapeScan(c: char, rest: string, s: State)
    requires s.quote != Quoted('\'') && !s.escaping
    ensures Scan(['\\', c] + rest, s) == Scan(rest, Add(s, c))
  {
    assert ['\\', c] + rest == ['\\'] + ([c] + rest);
    ScanChar('\\', [c] + rest, s);
    ScanChar(c, rest, s.(escaping := true));
  }

  /** In double quotes everything but the quote and the escape stands for itself. */
  lemma {:induction false} DoubleQuotedScan(text: string, rest: string, s: State)
    requires s.quote == Quoted('"') && !s.escaping && '"' !in text && '\\' !in text
    ensures Scan(text + rest, s) == Scan(rest, s.(current := s.current + text))
  {
    if text == "" {
      assert text + rest == rest && s.current + text == s.current;
    } else {
      Shift(s.current, text, rest);
      ScanChar(text[0], text[1..] + rest, s);
      DoubleQuotedScan(text[1..], rest, Add(s, text[0]));
    }
  }

  // ---------- hook substitution ----------

  datatype Var = Var(name: string, value: string)

  /** The names substituteVars knows, with their current values. */
  const VARIABLES: seq<string> := ["$SESSION_ID", "$WORKDIR", "$TOOL_NAME", "$STATUS", "$FILE"]

  /** Every name is a dollar sign and a capital letter and more. */
  predicate IsVariable(name: string) {
    |name| >= 2 && name[0] == '$' && 'A' <= name[1] <= 'Z'
  }

  lemma VariablesAreVariables()
    ensures forall i :: 0 <= i < |VARIABLES| ==> IsVariable(VARIABLES[i])
  {
    assert IsVariable("$SESSION_ID") && IsVariable("$WORKDIR") && IsVariable("$TOOL_NAME") && IsVariable("$STATUS") && IsVariable("$FILE");
  }

  /** The first variable whose name starts the text. */
  function MatchAt(vars: seq<Var>, text: string): (i: int)
    ensures -1 <= i < |vars|
    ensures i >= 0 ==> vars[i].name <= text
  {
    if vars == [] then -1
    else if vars[0].name <= text then 0
    else
      var i := MatchAt(vars[1..], text);
      if i < 0 then -1 else i + 1
  }

  /** strings.Replacer: left to right, without looking at what was put in. */
  function Substitute(vars: seq<Var>, text: string): string
    decreases |text|
  {
    if text == "" then ""
    else
      var i := MatchAt(vars, text);
      if i >= 0 && vars[i].name != "" then vars[i].value + Substitute(vars, text[|vars[i].name|..])
      else [text[0]] + Substitute(vars, text[1..])
  }

  method SubstituteAll(vars: seq<Var>, command: seq<string>) returns (out: seq<string>)
    ensures |out| == |command| && forall i :: 0 <= i < |command| ==> out[i] == Substitute(vars, command[i])
  {
    out := [];
    for i := 0 to |command|
      invariant |out| == i && forall k :: 0 <= k < i ==> out[k] == Substitute(vars, command[k])
    {
      out := out + [Substitute(vars, command[i])];
    }
  }

  lemma {:induction false} MatchMeaning(vars: seq<Var>, text: string, i: nat)
    requires i < |vars| && vars[i].name <= text && forall j :: 0 <= j < i ==> !(vars[j].name <= text)
    ensures MatchAt(vars, text) == i
  {
    if i > 0 {
      assert !(vars[0].name <= text);
      MatchMeaning(vars[1..], text, i - 1);
    }
  }

  /** Text without a dollar sign stays, and what follows it is replaced on its own. */
  lemma {:induction false} SubstituteSkips(vars: seq<Var>, before: string, rest: string)
    requires forall i :: 0 <= i < |vars| ==> IsVariable(vars[i].name)
    requires '$' !in before
    ensures Substitute(vars, before + rest) == before + Substitute(vars, rest)
  {
    if before == "" {
      assert before + rest == rest;
    } else {
      var text := before + rest;
      StartsWithout(vars, text);
      assert text[1..] == before[1..] + rest;
      SubstituteSkips(vars, before[1..], rest);
      assert [before[0]] + (before[1..] + Substitute(vars, rest)) == before + Substitute(vars, rest);
    }
  }

  lemma {:induction false} StartsWithout(vars: seq<Var>, text: string)
    requires forall i :: 0 <= i < |vars| ==> IsVariable(vars[i].name)
    requires text != "" && text[0] != '$'
    ensures MatchAt(vars, text) == -1
  {
    if vars != [] {
      assert IsVariable(vars[0].name);
      StartsWithout(vars[1..], text);
    }
  }

  /** The leftmost dollar sign that starts a variable is replaced by the value of the first variable that
      matches there; the value is not looked at again, and the rest is replaced in the same way. */
  lemma SubstituteMeaning(vars: seq<Var>, before: string, i: nat, rest: string)
    requires forall j :: 0 <= j < |vars| ==> IsVariable(vars[j].name)
    requires '$' !in before && i < |vars| && forall j :: 0 <= j < i ==> !(vars[j].name <= vars[i].name + rest)
    ensures Substitute(vars, before + (vars[i].name + rest)) == before + (vars[i].value + Substitute(vars, rest))
  {
    var text := vars[i].name + rest;
    SubstituteSkips(vars, before, text);
    MatchMeaning(vars, text, i);
    assert IsVariable(vars[i].name);
    assert text[|vars[i].name|..] == rest;
  }

  /** No dollar sign is followed by a letter that could start a variable. */
  predicate Guarded(text: string) {
    forall i :: 0 <= i < |text| && text[i] == '$' ==> i + 1 == |text| || !('A' <= text[i + 1] <= 'Z')
  }

  lemma NotAVariable(name: string, text: string)
    requires IsVariable(name) && Guarded(text)
    ensures !(name <= text)
  {
    if |text| >= 2 && text[0] == '$' {
      assert !('A' <= text[1] <= 'Z');
    }
  }

  lemma {:induction false} NoMatch(vars: seq<Var>, text: string)
    requires forall i :: 0 <= i < |vars| ==> IsVariable(vars[i].name)
    requires Guarded(text)
    ensures MatchAt(vars, text) == -1
  {
    if vars != [] {
      NotAVariable(vars[0].name, text);
      NoMatch(vars[1..], text);
    }
  }

  /** Substitution leaves guarded text alone. */
  lemma {:induction false} GuardedIsUnchanged(vars: seq<Var>, text: string)
    requires forall i :: 0 <= i < |vars| ==> IsVariable(vars[i].name)
    requires Guarded(text)
    ensures Substitute(vars, text) == text
    decreases |text|
  {
    if text != "" {
      NoMatch(vars, text);
      GuardedIsUnchanged(vars, text[1..]);
    }
  }

  // ---------- the generated hook command ----------

  /** strings.Split at the dollar signs. */
  function Split(path: string): (parts: seq<string>)
    ensures parts != []
  {
    if path == "" then [""]
    else
      var rest := Split(path[1..]);
      if path[0] == '$' then [""] + rest else [[path[0]] + rest[0]] + rest[1..]
  }

  /** The quoted parts, joined by quoted dollar signs. */
  function Glue(parts: seq<string>): string
    requires parts != []
  {
    if |parts| == 1 then Quote(parts[0]) else Quote(parts[0]) + ("'$'" + Glue(parts[1..]))
  }

  function Rejoin(parts: seq<string>): string
    requires parts != []
  {
    if |parts| == 1 then parts[0] else parts[0] + "$" + Rejoin(parts[1..])
  }

  /** generatedInitHookCommand. */
  method HookCommand(path: string) returns (command: seq<string>)
    ensures '$' !in path ==> command == ["/bin/sh", path]
    ensures '$' in path ==> command == ["/bin/sh", "-c", Script(path)]
  {
    if '$' !in path {
      return ["/bin/sh", path];
    }
    var parts := Split(path);
    var i := |parts| - 1;
    var glued := Quote(parts[i]);
    assert parts[i..] == [parts[i]];
    while i > 0
      invariant 0 <= i < |parts| && glued == Glue(parts[i..])
    {
      i := i - 1;
      assert parts[i..][1..] == parts[i + 1..] && parts[i..][0] == parts[i];
      glued := Quote(parts[i]) + ("'$'" + glued);
    }
    assert parts[0..] == parts;
    command := ["/bin/sh", "-c", "exec /bin/sh " + glued];
  }

  function Script(path: string): string {
    "exec /bin/sh " + Glue(Split(path))
  }

  lemma {:induction false} SplitRejoins(path: string)
    ensures Rejoin(Split(path)) == path
  {
    if path != "" {
      SplitRejoins(path[1..]);
      var rest := Split(path[1..]);
      if path[0] == '$' {
        assert ([""] + rest)[1..] == rest;
        assert "" + "$" + Rejoin(rest) == path;
      } else {
        var parts := [[path[0]] + rest[0]] + rest[1..];
        assert parts[1..] == rest[1..];
        if |rest| > 1 {
          assert [path[0]] + rest[0] + "$" + Rejoin(rest[1..]) == [path[0]] + (rest[0] + "$" + Rejoin(rest[1..]));
        }
      }
    }
  }

  lemma {:induction false} SplitHasNoDollar(path: string)
    ensures forall p :: p in Split(path) ==> '$' !in p
  {
    if path != "" {
      SplitHasNoDollar(path[1..]);
    }
  }

  lemma Regroup(a: string, b: string, c: string, d: string)
    ensures a + b + c + d == a + (b + c + d)
  {
  }

  lemma {:induction false} GlueScan(parts: seq<string>, s: State)
    requires parts != [] && Open(s)
    ensures Scan(Glue(parts), s) == s.(current := s.current + Rejoin(parts))
    decreases |parts|
  {
    if |parts| == 1 {
      QuoteScan(parts[0], "", s);
      assert Quote(parts[0]) + "" == Glue(parts);
    } else {
      var rest := Glue(parts[1..]);
      QuoteScan(parts[0], "'$'" + rest, s);
      var t := s.(current := s.current + parts[0]);
      assert Body("$") == "$" + Body("");
      assert Quote("$") == "'$'";
      QuoteScan("$", rest, t);
      var u := t.(current := t.current + "$");
      GlueScan(parts[1..], u);
      Regroup(s.current, parts[0], "$", Rejoin(parts[1..]));
    }
  }

  /** Characters that stand for themselves wherever they are. */
  predicate IsOrdinary(c: char) {
    'a' <= c <= 'z' || c == '/'
  }

  lemma {:induction false} OrdinaryScan(word: string, rest: string, s: State)
    requires Open(s) && forall i :: 0 <= i < |word| ==> IsOrdinary(word[i])
    ensures Scan(word + rest, s) == Scan(rest, s.(current := s.current + word))
  {
    if word == "" {
      assert word + rest == rest && s.current + word == s.current;
    } else {
      Shift(s.current, word, rest);
      ScanChar(word[0], word[1..] + rest, s);
      OrdinaryScan(word[1..], rest, Add(s, word[0]));
    }
  }

  lemma Shift(current: string, word: string, rest: string)
    requires word != ""
    ensures word + rest == [word[0]] + (word[1..] + rest)
    ensures (current + [word[0]]) + word[1..] == current + word
  {
  }

  /** An ordinary word and a blank make a token. */
  lemma WordThenBlank(word: string, rest: string, s: State)
    requires Open(s) && s.current == "" && word != "" && forall i :: 0 <= i < |word| ==> IsOrdinary(word[i])
    ensures Scan(word + (" " + rest), s) == Scan(rest, s.(tokens := s.tokens + [word], expectTarget := false))
  {
    OrdinaryScan(word, " " + rest, s);
    assert s.current + word == word;
    ScanChar(' ', rest, s.(current := word));
  }

  lemma PathTokens(path: string, s: State)
    requires path != "" && Open(s) && s.current == ""
    ensures Flush(Scan(Glue(Split(path)), s)).tokens == s.tokens + [path]
  {
    GlueScan(Split(path), s);
    SplitRejoins(path);
    assert s.current + path == path;
  }

  /** The generated script runs the shell on exactly the given path. */
  lemma ScriptTokens(path: string)
    requires path != ""
    ensures Tokens(Script(path)) == ["exec", "/bin/sh", path]
  {
    var glued := Glue(Split(path));
    var second := START.(tokens := ["exec", "/bin/sh"]);
    SplitScript(glued);
    ScriptWords(glued);
    assert second.tokens + [path] == ["exec", "/bin/sh", path];
    PathTokens(path, second);
  }

  lemma ScriptWords(glued: string)
    ensures Scan("exec" + (" " + ("/bin/sh" + (" " + glued))), START) == Scan(glued, START.(tokens := ["exec", "/bin/sh"]))
  {
    var first := START.(tokens := ["exec"]);
    assert START.tokens + ["exec"] == ["exec"];
    assert first.tokens + ["/bin/sh"] == ["exec", "/bin/sh"];
    WordThenBlank("exec", "/bin/sh" + (" " + glued), START);
    WordThenBlank("/bin/sh", glued, first);
  }

  lemma SplitScript(glued: string)
    ensures "exec /bin/sh " + glued == "exec" + (" " + ("/bin/sh" + (" " + glued)))
  {
    assert "exec /bin/sh " == "exec" + " " + "/bin/sh" + " ";
  }

  lemma {:induction false} BodyGuarded(value: string)
    requires '$' !in value
    ensures '$' !in Body(value)
  {
    if value != "" {
      BodyGuarded(value[1..]);
    }
  }

  lemma {:induction false} GlueGuarded(parts: seq<string>)
    requires parts != [] && forall p :: p in parts ==> '$' !in p
    ensures Guarded(Glue(parts)) && Glue(parts) != "" && Glue(parts)[0] == '\''
    decreases |parts|
  {
    BodyGuarded(parts[0]);
    if |parts| > 1 {
      GlueGuarded(parts[1..]);
      var rest := Glue(parts[1..]);
      var head := Quote(parts[0]);
      var all := head + ("'$'" + rest);
      forall i | 0 <= i < |all| && all[i] == '$'
        ensures i + 1 == |all| || !('A' <= all[i + 1] <= 'Z')
      {
        if i >= |head| + 3 {
          assert all[i] == rest[i - |head| - 3];
        }
      }
    }
  }

  lemma GuardedConcat(a: string, b: string)
    requires '$' !in a && Guarded(b)
    ensures Guarded(a + b)
  {
  }

  lemma ScriptGuarded(path: string)
    ensures Guarded(Script(path))
  {
    SplitHasNoDollar(path);
    GlueGuarded(Split(path));
    GuardedConcat("exec /bin/sh ", Glue(Split(path)));
  }

  /** A path with a dollar sign reaches the shell as it is: substitution changes nothing in the generated
      command, whatever the values, and the script runs the shell on the path. */
  lemma GeneratedCommandIsLiteral(vars: seq<Var>, path: string)
    requires forall i :: 0 <= i < |vars| ==> IsVariable(vars[i].name)
    requires '$' in path
    ensures Substitute(vars, Script(path)) == Script(path)
    ensures Tokens(Script(path)) == ["exec", "/bin/sh", path]
  {
    ScriptGuarded(path);
    GuardedIsUnchanged(vars, Script(path));
    ScriptTokens(path);
  }
}
