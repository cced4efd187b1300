/** Commands with a single-quoted path, and how a POSIX shell splits them (sections 2.2.2 and 2.3 of the command language). */
module Shell {
  import opened Basics

  datatype Token = Word(text: string) | AndIf | Great

  predicate Blank(c: char) { c == ' ' || c == '\t' }

  /** Characters that stand for themselves outside quotes. */
  predicate Plain(c: char) {
    'a' <= c <= 'z' || 'A' <= c <= 'Z' || '0' <= c <= '9' || c == '/' || c == '.' || c == '_' || c == '-' || c == '+' || c == ':'
  }

  function SkipBlanks(s: string): string { if s != [] && Blank(s[0]) then SkipBlanks(s[1..]) else s }

  datatype Lexed = Lexed(text: string, rest: string)

  /** Everything up to the closing quote, literally. */
  function Quoted(s: string): Option<Lexed> {
    if s == [] then None
    else if s[0] == '\'' then Some(Lexed([], s[1..]))
    else match Quoted(s[1..])
      case None => None
      case Some(q) => Some(Lexed([s[0]] + q.text, q.rest))
  }

  lemma {:induction false} QuotedShrinks(s: string)
    ensures Quoted(s).Some? ==> |Quoted(s).value.rest| < |s|
  {
    if s != [] { QuotedShrinks(s[1..]); }
  }

  /** A word: quoted stretches and plain characters up to a blank, an operator or the end. */
  function LexWord(s: string): Option<Lexed>
    decreases |s|
  {
    if s == [] || Blank(s[0]) || s[0] == '&' || s[0] == '>' then Some(Lexed([], s))
    else if s[0] == '\'' then
      match Quoted(s[1..])
      case None => None
      case Some(q) =>
        QuotedShrinks(s[1..]);
        (match LexWord(q.rest)
         case None => None
         case Some(w) => Some(Lexed(q.text + w.text, w.rest)))
    else if !Plain(s[0]) then None
    else match LexWord(s[1..])
      case None => None
      case Some(w) => Some(Lexed([s[0]] + w.text, w.rest))
  }

  /** The first token and the text after it; None at the end, on an open quote and on what this fragment leaves out. */
  function NextToken(s: string): Option<(Token, string)> {
    var s := SkipBlanks(s);
    if s == [] then None
    else if s[0] == '&' then if |s| >= 2 && s[1] == '&' then Some((AndIf, s[2..])) else None
    else if s[0] == '>' then Some((Great, s[1..]))
    else match LexWord(s)
      case None => None
      case Some(w) => Some((Word(w.text), w.rest))
  }

  /** The first n tokens and the text after them. */
  function Tokens(s: string, n: nat): Option<(seq<Token>, string)>
    decreases n
  {
    if n == 0 then Some(([], s))
    else match NextToken(s)
      case None => None
      case Some((t, rest)) =>
        match Tokens(rest, n - 1)
        case None => None
        case Some((ts, end)) => Some(([t] + ts, end))
  }

  // --- The commands -------------------------------------------------------------------------

  /** The deployment command. */
  function DeployCommand(dir: string, cmd: string): string { "cd '" + dir + "' && " + cmd }

  /** The upload command. */
  function UploadCommand(path: string): string { "cat > '" + path + "'" }

  datatype PathError = EmptyPath | LongPath | PathCharacters

  function CheckUploadPath(path: string): Option<PathError> {
    if path == "" then Some(EmptyPath)
    else if |path| > 4096 then Some(LongPath)
    else if '\0' in path || '\'' in path then Some(PathCharacters)
    else None
  }

  // --- Quoting ------------------------------------------------------------------------------

  lemma {:induction false} QuotedExact(text: string, rest: string)
    requires '\'' !in text
    ensures Quoted(text + "'" + rest) == Some(Lexed(text, rest))
  {
    var s := text + "'" + rest;
    if text == [] {
      assert s[1..] == rest;
    } else {
      QuotedExact(text[1..], rest);
      assert s[1..] == text[1..] + "'" + rest;
      assert [text[0]] + text[1..] == text;
    }
  }

  /** No token text of this fragment holds a quote. */
  lemma {:induction false} QuotedHasNone(s: string)
    ensures Quoted(s).Some? ==> '\'' !in Quoted(s).value.text
  {
    if s != [] { QuotedHasNone(s[1..]); }
  }

  lemma {:induction false} WordHasNone(s: string)
    ensures LexWord(s).Some? ==> '\'' !in LexWord(s).value.text
    decreases |s|
  {
    if s == [] || Blank(s[0]) || s[0] == '&' || s[0] == '>' {
    } else if s[0] == '\'' {
      QuotedHasNone(s[1..]);
      QuotedShrinks(s[1..]);
      if Quoted(s[1..]).Some? { WordHasNone(Quoted(s[1..]).value.rest); }
    } else if Plain(s[0]) {
      WordHasNone(s[1..]);
    }
  }

  /** A quoted text followed by a blank or the end is one word. */
  lemma QuotedWord(text: string, rest: string)
    requires '\'' !in text && (rest == [] || Blank(rest[0]))
    ensures LexWord("'" + text + "'" + rest) == Some(Lexed(text, rest))
  {
    var s := "'" + text + "'" + rest;
    assert s[1..] == text + "'" + rest;
    QuotedExact(text, rest);
    assert LexWord(rest) == Some(Lexed([], rest));
    assert text + [] == text;
  }

  lemma {:induction false} PlainWord(word: string, rest: string)
    requires (forall c :: c in word ==> Plain(c)) && (rest == [] || Blank(rest[0]))
    ensures LexWord(word + rest) == Some(Lexed(word, rest))
  {
    if word == [] {
      assert word + rest == rest;
    } else {
      PlainWord(word[1..], rest);
      var s := word + rest;
      assert s[0] == word[0] && Plain(s[0]) && !Blank(s[0]);
      assert s[1..] == word[1..] + rest;
      assert LexWord(s[1..]) == Some(Lexed(word[1..], rest));
      assert LexWord(s) == Some(Lexed([s[0]] + word[1..], rest));
      assert [s[0]] + word[1..] == word;
    }
  }

  lemma SkipOne(s: string)
    requires s != [] && !Blank(s[0])
    ensures SkipBlanks(" " + s) == s && SkipBlanks(s) == s
  {
    assert (" " + s)[1..] == s;
  }

  lemma FirstWord(word: string, rest: string)
    requires word != [] && (forall c :: c in word ==> Plain(c)) && (rest == [] || Blank(rest[0]))
    ensures NextToken(word + rest) == Some((Word(word), rest))
  {
    PlainWord(word, rest);
    assert SkipBlanks(word + rest) == word + rest;
  }

  lemma QuotedToken(text: string, rest: string)
    requires '\'' !in text && (rest == [] || Blank(rest[0]))
    ensures NextToken(" '" + text + "'" + rest) == Some((Word(text), rest))
  {
    var s := "'" + text + "'" + rest;
    assert " '" + text + "'" + rest == " " + s;
    SkipOne(s);
    QuotedWord(text, rest);
  }

  lemma OperatorToken(op: Token, rest: string)
    requires !op.Word?
    ensures NextToken((if op.AndIf? then " &&" else " >") + rest) == Some((op, rest))
  {
    var s := (if op.AndIf? then "&&" else ">") + rest;
    assert (if op.AndIf? then " &&" else " >") + rest == " " + s;
    SkipOne(s);
  }

  lemma TokensStep(s: string, n: nat, t: Token, rest: string)
    requires NextToken(s) == Some((t, rest))
    ensures Tokens(s, n + 1) == match Tokens(rest, n) case None => None case Some((ts, end)) => Some(([t] + ts, end))
  {
  }

  lemma ThreeTokens(a: Token, b: Token, c: Token)
    ensures [a] + ([b] + ([c] + [])) == [a, b, c]
    ensures forall s: string :: Tokens(s, 0) == Some(([], s))
  {
  }

  /** The deployment command runs `cd` with exactly the stored directory, then the post-pull command as stored. */
  lemma DeployTokens(dir: string, cmd: string)
    requires '\'' !in dir
    ensures Tokens(DeployCommand(dir, cmd), 3) == Some(([Word("cd"), Word(dir), AndIf], " " + cmd))
  {
    hide NextToken;
    var r2 := " " + cmd;
    var r1 := " &&" + r2;
    var r0 := " '" + dir + "'" + r1;
    assert DeployCommand(dir, cmd) == "cd" + r0;
    FirstWord("cd", r0);
    QuotedToken(dir, r1);
    OperatorToken(AndIf, r2);
    TokensStep(DeployCommand(dir, cmd), 2, Word("cd"), r0);
    TokensStep(r0, 1, Word(dir), r1);
    TokensStep(r1, 0, AndIf, r2);
    ThreeTokens(Word("cd"), Word(dir), AndIf);
  }

  /** The second word of any command beginning `cd` is never a text with a quote. */
  lemma SecondWordHasNone(dir: string, cmd: string)
    ensures Tokens(DeployCommand(dir, cmd), 2).Some? && Tokens(DeployCommand(dir, cmd), 2).value.0[1].Word? ==>
              '\'' !in Tokens(DeployCommand(dir, cmd), 2).value.0[1].text
  {
    hide NextToken;
    var r0 := " '" + dir + "' && " + cmd;
    assert DeployCommand(dir, cmd) == "cd" + r0;
    FirstWord("cd", r0);
    TokensStep(DeployCommand(dir, cmd), 1, Word("cd"), r0);
    if NextToken(r0).Some? {
      TokensStep(r0, 0, NextToken(r0).value.0, NextToken(r0).value.1);
      TokenHasNone(r0);
    }
  }

  lemma TokenHasNone(s: string)
    ensures NextToken(s).Some? && NextToken(s).value.0.Word? ==> '\'' !in NextToken(s).value.0.text
  {
    WordHasNone(SkipBlanks(s));
  }

  /** The command changes to exactly the directory and no other if and only if the directory holds no quote. */
  lemma DeployExactIffNoQuote(dir: string, cmd: string)
    ensures Tokens(DeployCommand(dir, cmd), 3) == Some(([Word("cd"), Word(dir), AndIf], " " + cmd)) <==> '\'' !in dir
  {
    hide Tokens, DeployCommand;
    if '\'' !in dir {
      DeployTokens(dir, cmd);
    } else {
      SecondWordHasNone(dir, cmd);
      FewerTokens(DeployCommand(dir, cmd));
    }
  }

  lemma FewerTokens(s: string)
    ensures Tokens(s, 3).Some? ==> Tokens(s, 2).Some? && Tokens(s, 2).value.0 == Tokens(s, 3).value.0[..2]
  {
    hide NextToken;
    if Tokens(s, 3).Some? {
      var (t1, r1) := NextToken(s).value;
      var (t2, r2) := NextToken(r1).value;
      var (t3, r3) := NextToken(r2).value;
      TokensStep(r2, 0, t3, r3);
      TokensStep(r1, 1, t2, r2);
      TokensStep(s, 2, t1, r1);
      TokensStep(r1, 0, t2, r2);
      TokensStep(s, 1, t1, r1);
    }
  }

  /**
   * A path is accepted exactly when it has 1 to 4096 bytes and neither quote nor null byte, and then comes back from the upload
   * command unchanged, with nothing after it.
   */
  lemma UploadTokens(path: string)
    ensures CheckUploadPath(path) == None <==> 1 <= |path| <= 4096 && '\0' !in path && '\'' !in path
    ensures CheckUploadPath(path) == None ==> Tokens(UploadCommand(path), 3) == Some(([Word("cat"), Great, Word(path)], ""))
  {
    if CheckUploadPath(path) == None { AcceptedTokens(path); }
  }

  lemma AcceptedTokens(path: string)
    requires '\'' !in path
    ensures Tokens(UploadCommand(path), 3) == Some(([Word("cat"), Great, Word(path)], ""))
  {
    hide NextToken;
    var r1 := " '" + path + "'" + "";
    var r0 := " >" + r1;
    assert UploadCommand(path) == "cat" + r0;
    FirstWord("cat", r0);
    OperatorToken(Great, r1);
    QuotedToken(path, "");
    TokensStep(UploadCommand(path), 2, Word("cat"), r0);
    TokensStep(r0, 1, Great, r1);
    TokensStep(r1, 0, Word(path), "");
    ThreeTokens(Word("cat"), Great, Word(path));
  }
}
