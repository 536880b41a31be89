/** The shell's tokens, and its parser as a function of what is left of the
    input. */
module ShellSyntax {

  const MAXARGS: nat := 10

  predicate IsSpace(c: char) {
    c == ' ' || c == '\t' || c == '\r' || c == '\n' || c == '\U{0B}'
  }

  predicate IsSymbol(c: char) {
    c == '<' || c == '|' || c == '>' || c == '&' || c == ';' || c == '(' || c == ')'
  }

  predicate IsWordChar(c: char) {
    !IsSpace(c) && !IsSymbol(c)
  }

  // ---- Tokens ----

  /** A word and how much of the input was left right after it. */
  datatype Word = Word(text: string, left: nat)

  datatype Token = End | Symbol(c: char) | Append | Arg(w: Word)

  function Skip(s: string): (r: string)
    ensures |r| <= |s| && (r == [] || !IsSpace(r[0]))
  {
    if s != [] && IsSpace(s[0]) then Skip(s[1..]) else s
  }

  function WordLen(s: string): (n: nat)
    ensures n <= |s|
  {
    if s != [] && IsWordChar(s[0]) then 1 + WordLen(s[1..]) else 0
  }

  function GetToken(s: string): (r: (Token, string))
    ensures |r.1| <= |s| && (r.0 == End <==> Skip(s) == []) && (r.0 != End ==> |r.1| < |s|)
  {
    var t := Skip(s);
    if t == [] then (End, t)
    else if t[0] == '>' && |t| > 1 && t[1] == '>' then (Append, Skip(t[2..]))
    else if IsSymbol(t[0]) then (Symbol(t[0]), Skip(t[1..]))
    else (Arg(Word(t[..WordLen(t)], |t| - WordLen(t))), Skip(t[WordLen(t)..]))
  }

  predicate Peek(s: string, toks: set<char>) {
    Skip(s) != [] && Skip(s)[0] in toks
  }

  // ---- Commands ----

  /** fd is 0 for '<' and 1 for '>' and '>>', which come to the same. */
  datatype Cmd =
    | Exec(args: seq<Word>)
    | Redir(cmd: Cmd, file: Word, fd: nat)
    | Pipe(left: Cmd, right: Cmd)
    | List(first: Cmd, rest: Cmd)
    | Back(job: Cmd)

  datatype R = R(file: Word, fd: nat)

  /** The command with redirections wrapped around it, the first innermost. */
  function Wrap(c: Cmd, rs: seq<R>): Cmd {
    if rs == [] then c else Redir(Wrap(c, rs[..|rs| - 1]), rs[|rs| - 1].file, rs[|rs| - 1].fd)
  }

  datatype Parsed<T> = Ok(value: T, rest: string) | Panic

  // ---- The parser ----

  /** parseredirs */
  function Redirs(s: string): (r: Parsed<seq<R>>)
    ensures r.Ok? ==> |r.rest| <= |s|
    decreases |s|
  {
    if !Peek(s, {'<', '>'}) then Ok([], Skip(s))
    else
      var op := GetToken(s);
      var file := GetToken(op.1);
      if !file.0.Arg? then Panic
      else
        var more := Redirs(file.1);
        if more.Panic? then Panic
        else Ok([R(file.0.w, if op.0 == Symbol('<') then 0 else 1)] + more.value, more.rest)
  }

  /** The loop of parseexec, with the arguments and redirections so far. */
  function Args(args: seq<Word>, rs: seq<R>, s: string): (r: Parsed<Cmd>)
    ensures r.Ok? ==> |r.rest| <= |s|
    decreases |s|
  {
    if Peek(s, {'|', ')', '&', ';'}) then Ok(Wrap(Exec(args), rs), Skip(s))
    else
      var tok := GetToken(s);
      if tok.0 == End then Ok(Wrap(Exec(args), rs), tok.1)
      else if !tok.0.Arg? || |args| + 1 >= MAXARGS then Panic
      else
        var more := Redirs(tok.1);
        if more.Panic? then Panic else Args(args + [tok.0.w], rs + more.value, more.rest)
  }

  function ParseExec(s: string): (r: Parsed<Cmd>)
    ensures r.Ok? ==> |r.rest| <= |s|
    decreases |s|, 1
  {
    if Peek(s, {'('}) then ParseBlock(s)
    else
      var rs := Redirs(Skip(s));
      if rs.Panic? then Panic else Args([], rs.value, rs.rest)
  }

  function ParseBlock(s: string): (r: Parsed<Cmd>)
    requires Peek(s, {'('})
    ensures r.Ok? ==> |r.rest| <= |s|
    decreases |s|, 0
  {
    var inner := ParseLine(GetToken(s).1);
    if inner.Panic? || !Peek(inner.rest, {')'}) then Panic
    else
      var rs := Redirs(GetToken(inner.rest).1);
      if rs.Panic? then Panic else Ok(Wrap(inner.value, rs.value), rs.rest)
  }

  function ParsePipe(s: string): (r: Parsed<Cmd>)
    ensures r.Ok? ==> |r.rest| <= |s|
    decreases |s|, 2
  {
    var left := ParseExec(s);
    if left.Panic? then Panic
    else if !Peek(left.rest, {'|'}) then Ok(left.value, Skip(left.rest))
    else
      var right := ParsePipe(GetToken(left.rest).1);
      if right.Panic? then Panic else Ok(Pipe(left.value, right.value), right.rest)
  }

  /** The loop of parseline over '&'. */
  function Backs(c: Cmd, s: string): (r: (Cmd, string))
    ensures |r.1| <= |s|
    decreases |s|
  {
    if Peek(s, {'&'}) then Backs(Back(c), GetToken(s).1) else (c, Skip(s))
  }

  function ParseLine(s: string): (r: Parsed<Cmd>)
    ensures r.Ok? ==> |r.rest| <= |s|
    decreases |s|, 3
  {
    var p := ParsePipe(s);
    if p.Panic? then Panic
    else
      var b := Backs(p.value, p.rest);
      if !Peek(b.1, {';'}) then Ok(b.0, Skip(b.1))
      else
        var rest := ParseLine(GetToken(b.1).1);
        if rest.Panic? then Panic else Ok(List(b.0, rest.value), rest.rest)
  }

  /** parsecmd, before nulterminate: leftovers are a syntax error. */
  function ParseCmd(s: string): Parsed<Cmd> {
    var r := ParseLine(s);
    if r.Panic? || Skip(r.rest) != [] then Panic else Ok(r.value, Skip(r.rest))
  }

  // ---- Trees without positions ----

  datatype Tree =
    | TExec(args: seq<string>)
    | TRedir(cmd: Tree, file: string, out: bool)
    | TPipe(left: Tree, right: Tree)
    | TList(first: Tree, rest: Tree)
    | TBack(job: Tree)

  function Texts(ws: seq<Word>): (r: seq<string>)
    ensures |r| == |ws| && forall k :: 0 <= k < |ws| ==> r[k] == ws[k].text
  {
    seq(|ws|, k requires 0 <= k < |ws| => ws[k].text)
  }

  function Plain(c: Cmd): Tree {
    match c
    case Exec(args) => TExec(Texts(args))
    case Redir(cmd, file, fd) => TRedir(Plain(cmd), file.text, fd == 1)
    case Pipe(l, r) => TPipe(Plain(l), Plain(r))
    case List(l, r) => TList(Plain(l), Plain(r))
    case Back(j) => TBack(Plain(j))
  }

  // ---- Trees that can be typed ----

  predicate LegalWord(w: string) {
    w != [] && forall k :: 0 <= k < |w| ==> IsWordChar(w[k]) && w[k] != '\0'
  }

  /** Trees the shell can be told to build. */
  predicate Legal(t: Tree) {
    match t
    case TExec(args) => |args| < MAXARGS && forall k :: 0 <= k < |args| ==> LegalWord(args[k])
    case TRedir(c, file, _) => Legal(c) && LegalWord(file)
    case TPipe(l, r) => Legal(l) && Legal(r)
    case TList(l, r) => Legal(l) && Legal(r)
    case TBack(j) => Legal(j)
  }
}
