/** Leading blanks do not matter to the parser. */
module ShellSkips {
  import opened ShellSyntax

  lemma SkipSkip(s: string)
    ensures Skip(Skip(s)) == Skip(s)
  {
  }

  lemma SkipToken(s: string)
    ensures GetToken(Skip(s)) == GetToken(s)
  {
    SkipSkip(s);
  }

  lemma SkipRedirs(s: string)
    ensures Redirs(Skip(s)) == Redirs(s) && GetToken(Skip(s)) == GetToken(s)
  {
    SkipSkip(s);
    SkipToken(s);
    assert Peek(Skip(s), {'<', '>'}) == Peek(s, {'<', '>'});
  }

  lemma SkipArgs(args: seq<Word>, rs: seq<R>, s: string)
    ensures Args(args, rs, Skip(s)) == Args(args, rs, s)
  {
    SkipSkip(s);
    SkipRedirs(s);
  }

  lemma SkipExec(s: string)
    ensures ParseExec(Skip(s)) == ParseExec(s)
  {
    SkipSkip(s);
    SkipRedirs(s);
  }

  lemma SkipLine(s: string)
    ensures ParsePipe(Skip(s)) == ParsePipe(s) && ParseLine(Skip(s)) == ParseLine(s)
  {
    SkipExec(s);
  }
}

/** The shell's language without its parser: what can be typed, with blanks and
    redirections wherever they may stand, and the command each form means. */
module ShellGrammar {
  import opened ShellSyntax

  predicate Blank(c: char) {
    c == ' ' || c == '\t' || c == '\r' || c == '\n' || c == '\U{0B}'
  }

  predicate Blanks(b: string) {
    forall k :: 0 <= k < |b| ==> Blank(b[k])
  }

  predicate Special(c: char) {
    c == '<' || c == '|' || c == '>' || c == '&' || c == ';' || c == '(' || c == ')'
  }

  predicate Name(w: string) {
    w != [] && forall k :: 0 <= k < |w| ==> !Blank(w[k]) && !Special(w[k])
  }

  /** '<', '>' and '>>'. */
  datatype Op = From | To | More

  /** A gap is the blanks before a token. */
  datatype Redirect = Redirect(gap: string, op: Op, mid: string, file: string)

  datatype Argument = Argument(gap: string, word: string, redirects: seq<Redirect>)

  datatype Atom =
    | Simple(redirects: seq<Redirect>, args: seq<Argument>)
    | Block(gap: string, line: Line, close: string, redirects: seq<Redirect>)

  datatype Pipeline = Single(atom: Atom) | Piped(atom: Atom, gap: string, rest: Pipeline)

  /** amps: the gap before each '&'. */
  datatype Line = Last(pipe: Pipeline, amps: seq<string>) | Before(pipe: Pipeline, amps: seq<string>, gap: string, rest: Line)

  // ---- What is typed, with more text after it ----

  function OpText(op: Op): string {
    match op
    case From => "<"
    case To => ">"
    case More => ">>"
  }

  function RedirsText(rs: seq<Redirect>, rest: string): string {
    if rs == [] then rest
    else rs[0].gap + (OpText(rs[0].op) + (rs[0].mid + (rs[0].file + RedirsText(rs[1..], rest))))
  }

  function ArgsText(ws: seq<Argument>, rest: string): string {
    if ws == [] then rest
    else ws[0].gap + (ws[0].word + RedirsText(ws[0].redirects, ArgsText(ws[1..], rest)))
  }

  function AtomText(a: Atom, rest: string): string
    decreases a
  {
    match a
    case Simple(rs, ws) => RedirsText(rs, ArgsText(ws, rest))
    case Block(gap, line, close, rs) => gap + (['('] + LineText(line, close + ([')'] + RedirsText(rs, rest))))
  }

  function PipeText(p: Pipeline, rest: string): string
    decreases p
  {
    match p
    case Single(a) => AtomText(a, rest)
    case Piped(a, gap, q) => AtomText(a, gap + (['|'] + PipeText(q, rest)))
  }

  function AmpsText(amps: seq<string>, rest: string): string {
    if amps == [] then rest else amps[0] + (['&'] + AmpsText(amps[1..], rest))
  }

  function LineText(l: Line, rest: string): string
    decreases l
  {
    match l
    case Last(p, amps) => PipeText(p, AmpsText(amps, rest))
    case Before(p, amps, gap, more) => PipeText(p, AmpsText(amps, gap + ([';'] + LineText(more, rest))))
  }

  // ---- When it is in the language ----

  predicate RedirsOk(rs: seq<Redirect>) {
    forall k :: 0 <= k < |rs| ==> Blanks(rs[k].gap) && Blanks(rs[k].mid) && Name(rs[k].file)
  }

  /** A gap must not be empty between two names; after says that a name has come
      before. */
  predicate ArgsOk(ws: seq<Argument>, after: bool) {
    && (forall k :: 0 <= k < |ws| ==> Blanks(ws[k].gap) && Name(ws[k].word) && RedirsOk(ws[k].redirects))
    && (forall k :: 0 <= k < |ws| && (after || k > 0) ==> ws[k].gap != [])
  }

  predicate AtomOk(a: Atom) {
    match a
    case Simple(rs, ws) => RedirsOk(rs) && ArgsOk(ws, rs != []) && |ws| < MAXARGS
    case Block(gap, line, close, rs) => Blanks(gap) && LineOk(line) && Blanks(close) && RedirsOk(rs)
  }

  predicate PipeOk(p: Pipeline) {
    match p
    case Single(a) => AtomOk(a)
    case Piped(a, gap, q) => AtomOk(a) && Blanks(gap) && PipeOk(q)
  }

  predicate AmpsOk(amps: seq<string>) {
    forall k :: 0 <= k < |amps| ==> Blanks(amps[k])
  }

  predicate LineOk(l: Line) {
    match l
    case Last(p, amps) => PipeOk(p) && AmpsOk(amps)
    case Before(p, amps, gap, more) => PipeOk(p) && AmpsOk(amps) && Blanks(gap) && LineOk(more)
  }

  // ---- What it means ----

  /** A file, for output or for input. */
  datatype Link = Link(file: string, out: bool)

  function RedirsLinks(rs: seq<Redirect>): (r: seq<Link>)
    ensures |r| == |rs| && forall k :: 0 <= k < |rs| ==> r[k] == Link(rs[k].file, rs[k].op != From)
  {
    seq(|rs|, k requires 0 <= k < |rs| => Link(rs[k].file, rs[k].op != From))
  }

  function ArgsWords(ws: seq<Argument>): (r: seq<string>)
    ensures |r| == |ws| && forall k :: 0 <= k < |ws| ==> r[k] == ws[k].word
  {
    seq(|ws|, k requires 0 <= k < |ws| => ws[k].word)
  }

  function ArgsLinks(ws: seq<Argument>): seq<Link> {
    if ws == [] then [] else RedirsLinks(ws[0].redirects) + ArgsLinks(ws[1..])
  }

  /** Redirections go around the command, the first innermost. */
  function TWrap(t: Tree, ch: seq<Link>): Tree {
    if ch == [] then t else TRedir(TWrap(t, ch[..|ch| - 1]), ch[|ch| - 1].file, ch[|ch| - 1].out)
  }

  function TBacks(t: Tree, k: nat): Tree
    decreases k
  {
    if k == 0 then t else TBacks(TBack(t), k - 1)
  }

  function AtomTree(a: Atom): Tree {
    match a
    case Simple(rs, ws) => TWrap(TExec(ArgsWords(ws)), RedirsLinks(rs) + ArgsLinks(ws))
    case Block(_, line, _, rs) => TWrap(LineTree(line), RedirsLinks(rs))
  }

  function PipeTree(p: Pipeline): Tree {
    match p
    case Single(a) => AtomTree(a)
    case Piped(a, _, q) => TPipe(AtomTree(a), PipeTree(q))
  }

  function LineTree(l: Line): Tree {
    match l
    case Last(p, amps) => TBacks(PipeTree(p), |amps|)
    case Before(p, amps, _, more) => TList(TBacks(PipeTree(p), |amps|), LineTree(more))
  }
}

/** Everything in the language is parsed, into what it means. */
module ShellComplete {
  import opened ShellSyntax
  import opened ShellSkips
  import opened ShellGrammar

  predicate EndsWord(rest: string) {
    rest == [] || !IsWordChar(rest[0])
  }

  /** The next token, if any, is one of cs. */
  predicate Stops(rest: string, cs: set<char>) {
    Skip(rest) == [] || Skip(rest)[0] in cs
  }

  // ---- Tokens ----

  lemma {:induction false} SkipGap(b: string, x: string)
    requires Blanks(b)
    ensures Skip(b + x) == Skip(x)
    decreases |b|
  {
    if b == [] {
      assert b + x == x;
    } else {
      assert (b + x)[1..] == b[1..] + x && (b + x)[0] == b[0];
      SkipGap(b[1..], x);
    }
  }

  lemma TokenGap(b: string, x: string)
    requires Blanks(b)
    ensures GetToken(b + x) == GetToken(x)
  {
    SkipGap(b, x);
    SkipToken(x);
    SkipToken(b + x);
  }

  lemma {:induction false} WordLenIs(w: string, rest: string)
    requires (forall k :: 0 <= k < |w| ==> IsWordChar(w[k])) && EndsWord(rest)
    ensures WordLen(w + rest) == |w|
    decreases |w|
  {
    var t := w + rest;
    if w == [] {
      assert t == rest;
    } else {
      assert t[1..] == w[1..] + rest;
      WordLenIs(w[1..], rest);
    }
  }

  lemma NameToken(w: string, rest: string)
    requires Name(w) && EndsWord(rest)
    ensures Skip(w + rest) == w + rest && GetToken(w + rest) == (Arg(Word(w, |rest|)), Skip(rest))
  {
    var t := w + rest;
    assert t[0] == w[0];
    WordLenIs(w, rest);
    assert t[..|w|] == w && t[|w|..] == rest;
  }

  lemma SymbolToken(c: char, rest: string)
    requires Special(c) && (c == '>' ==> rest == [] || rest[0] != '>')
    ensures Skip([c] + rest) == [c] + rest && GetToken([c] + rest) == (Symbol(c), Skip(rest))
  {
    assert ([c] + rest)[1..] == rest;
  }

  lemma AppendToken(rest: string)
    ensures Skip(">>" + rest) == ">>" + rest && GetToken(">>" + rest) == (Append, Skip(rest))
  {
    assert (">>" + rest)[2..] == rest;
  }

  /** A gap, an operator of redirections and then no '>'. */
  lemma OpToken(gap: string, op: Op, rest: string)
    requires Blanks(gap) && rest != [] && rest[0] != '>'
    ensures var s := gap + (OpText(op) + rest);
            Peek(s, {'<', '>'}) && GetToken(s).1 == Skip(rest) && (GetToken(s).0 == Symbol('<') <==> op == From)
  {
    var s := OpText(op) + rest;
    SkipGap(gap, s);
    TokenGap(gap, s);
    match op {
      case From => SymbolToken('<', rest);
      case To => SymbolToken('>', rest);
      case More => AppendToken(rest);
    }
  }

  // ---- Redirections ----

  function Links(rs: seq<R>): (r: seq<Link>)
    ensures |r| == |rs| && forall k :: 0 <= k < |rs| ==> r[k] == Link(rs[k].file.text, rs[k].fd == 1)
  {
    seq(|rs|, k requires 0 <= k < |rs| => Link(rs[k].file.text, rs[k].fd == 1))
  }

  lemma {:induction false} WrapPlain(c: Cmd, rs: seq<R>)
    ensures Plain(Wrap(c, rs)) == TWrap(Plain(c), Links(rs))
    decreases |rs|
  {
    if rs != [] {
      WrapPlain(c, rs[..|rs| - 1]);
      assert Links(rs)[..|rs| - 1] == Links(rs[..|rs| - 1]);
    }
  }

  lemma RedirsEnd(rs: seq<Redirect>, rest: string)
    requires RedirsOk(rs) && (rs == [] ==> EndsWord(rest))
    ensures EndsWord(RedirsText(rs, rest))
  {
    if rs != [] {
      var u := rs[0].mid + (rs[0].file + RedirsText(rs[1..], rest));
      var v := OpText(rs[0].op) + u;
      assert v[0] == OpText(rs[0].op)[0];
      assert RedirsText(rs, rest) == rs[0].gap + v;
      assert rs[0].gap != [] ==> (rs[0].gap + v)[0] == rs[0].gap[0];
    }
  }

  lemma RedirOne(r: Redirect, u: string)
    requires RedirsOk([r]) && EndsWord(u) && Redirs(u).Ok?
    ensures Redirs(r.gap + (OpText(r.op) + (r.mid + (r.file + u))))
            == Ok([R(Word(r.file, |u|), if r.op == From then 0 else 1)] + Redirs(u).value, Redirs(u).rest)
  {
    assert Blanks([r][0].gap) && Blanks([r][0].mid) && Name([r][0].file);
    var m := r.mid + (r.file + u);
    FileToken(r.mid, r.file, u);
    OpToken(r.gap, r.op, m);
    SkipRedirs(u);
  }

  lemma FileToken(mid: string, file: string, u: string)
    requires Blanks(mid) && Name(file) && EndsWord(u)
    ensures var m := mid + (file + u);
            m != [] && m[0] != '>' && GetToken(Skip(m)) == (Arg(Word(file, |u|)), Skip(u))
  {
    var f := file + u;
    var m := mid + f;
    assert f[0] == file[0];
    assert m[0] == if mid == [] then f[0] else mid[0];
    NameToken(file, u);
    TokenGap(mid, f);
    SkipToken(m);
  }

  lemma {:induction false} RedirsAll(rs: seq<Redirect>, rest: string)
    requires RedirsOk(rs) && (rs != [] ==> EndsWord(rest)) && !Peek(rest, {'<', '>'})
    ensures var r := Redirs(RedirsText(rs, rest)); r.Ok? && Links(r.value) == RedirsLinks(rs) && r.rest == Skip(rest)
    decreases |rs|
  {
    if rs != [] {
      var u := RedirsText(rs[1..], rest);
      RedirsEnd(rs[1..], rest);
      RedirsAll(rs[1..], rest);
      assert RedirsOk([rs[0]]);
      RedirOne(rs[0], u);
      LinksFirst(rs, R(Word(rs[0].file, |u|), if rs[0].op == From then 0 else 1), Redirs(u).value);
    }
  }

  lemma LinksFirst(rs: seq<Redirect>, x: R, more: seq<R>)
    requires rs != [] && x.file.text == rs[0].file && (x.fd == 1 <==> rs[0].op != From) && Links(more) == RedirsLinks(rs[1..])
    ensures Links([x] + more) == RedirsLinks(rs)
  {
  }

  // ---- Simple commands ----

  const STOP: set<char> := {'|', ')', '&', ';'}

  lemma StopEnds(rest: string)
    requires Stops(rest, STOP)
    ensures EndsWord(rest) && !Peek(rest, {'<', '>'}) && !Peek(rest, {'('})
  {
  }

  lemma ArgsEnd(ws: seq<Argument>, rest: string)
    requires ArgsOk(ws, true) && Stops(rest, STOP)
    ensures EndsWord(ArgsText(ws, rest))
  {
    if ws == [] {
      StopEnds(rest);
    } else {
      var v := ws[0].word + RedirsText(ws[0].redirects, ArgsText(ws[1..], rest));
      assert ArgsText(ws, rest) == ws[0].gap + v;
      assert (ws[0].gap + v)[0] == ws[0].gap[0];
    }
  }

  /** What starts with a name is no redirection and no block. */
  lemma ArgsPeek(ws: seq<Argument>, after: bool, rest: string)
    requires ArgsOk(ws, after) && Stops(rest, STOP)
    ensures !Peek(ArgsText(ws, rest), {'<', '>'}) && !Peek(ArgsText(ws, rest), {'('})
    ensures ws != [] ==> !Peek(ArgsText(ws, rest), STOP)
  {
    if ws == [] {
      StopEnds(rest);
    } else {
      var v := ws[0].word + RedirsText(ws[0].redirects, ArgsText(ws[1..], rest));
      assert v[0] == ws[0].word[0];
      SkipGap(ws[0].gap, v);
    }
  }

  lemma ArgOne(args: seq<Word>, rs: seq<R>, a: Argument, u: string)
    requires Blanks(a.gap) && Name(a.word) && |args| + 1 < MAXARGS && EndsWord(u) && Redirs(u).Ok?
    ensures Args(args, rs, a.gap + (a.word + u)) == Args(args + [Word(a.word, |u|)], rs + Redirs(u).value, Redirs(u).rest)
  {
    var v := a.word + u;
    NameToken(a.word, u);
    SkipGap(a.gap, v);
    TokenGap(a.gap, v);
    assert v[0] == a.word[0];
    SkipRedirs(u);
  }

  lemma Stopped(args: seq<Word>, rs: seq<R>, rest: string)
    requires Stops(rest, STOP)
    ensures Args(args, rs, rest) == Ok(Wrap(Exec(args), rs), Skip(rest))
  {
    assert Skip(rest) == [] ==> GetToken(rest) == (End, []);
  }

  lemma {:induction false} ArgsAll(args: seq<Word>, rs: seq<R>, ws: seq<Argument>, after: bool, rest: string)
    requires ArgsOk(ws, after) && |args| + |ws| < MAXARGS && Stops(rest, STOP)
    ensures var r := Args(args, rs, ArgsText(ws, rest));
            && r.Ok? && r.rest == Skip(rest)
            && Plain(r.value) == TWrap(TExec(Texts(args) + ArgsWords(ws)), Links(rs) + ArgsLinks(ws))
    decreases |ws|
  {
    if ws == [] {
      Stopped(args, rs, rest);
      WrapPlain(Exec(args), rs);
      assert Texts(args) + ArgsWords(ws) == Texts(args) && Links(rs) + ArgsLinks(ws) == Links(rs);
    } else {
      var a, more := ws[0], ArgsText(ws[1..], rest);
      var u := RedirsText(a.redirects, more);
      ArgsEnd(ws[1..], rest);
      ArgsPeek(ws[1..], true, rest);
      RedirsEnd(a.redirects, more);
      RedirsAll(a.redirects, more);
      ArgOne(args, rs, a, u);
      var w, rs1 := Word(a.word, |u|), Redirs(u).value;
      ArgsAll(args + [w], rs + rs1, ws[1..], true, rest);
      SkipArgs(args + [w], rs + rs1, more);
      ArgsJoin(args, rs, w, rs1, ws);
    }
  }

  lemma ArgsJoin(args: seq<Word>, rs: seq<R>, w: Word, rs1: seq<R>, ws: seq<Argument>)
    requires ws != [] && w.text == ws[0].word && Links(rs1) == RedirsLinks(ws[0].redirects)
    ensures Texts(args + [w]) + ArgsWords(ws[1..]) == Texts(args) + ArgsWords(ws)
    ensures Links(rs + rs1) + ArgsLinks(ws[1..]) == Links(rs) + ArgsLinks(ws)
  {
    TextsJoin(args, w, ws);
    LinksJoin(rs, rs1, ArgsLinks(ws[1..]));
  }

  lemma TextsJoin(args: seq<Word>, w: Word, ws: seq<Argument>)
    requires ws != [] && w.text == ws[0].word
    ensures Texts(args + [w]) + ArgsWords(ws[1..]) == Texts(args) + ArgsWords(ws)
  {
  }

  lemma LinksJoin(rs: seq<R>, rs1: seq<R>, more: seq<Link>)
    ensures Links(rs + rs1) + more == Links(rs) + (Links(rs1) + more)
  {
    assert Links(rs + rs1) == Links(rs) + Links(rs1);
  }

  lemma SimpleParses(rs: seq<Redirect>, ws: seq<Argument>, rest: string)
    requires RedirsOk(rs) && ArgsOk(ws, rs != []) && |ws| < MAXARGS && Stops(rest, STOP)
    ensures var r := ParseExec(RedirsText(rs, ArgsText(ws, rest)));
            r.Ok? && r.rest == Skip(rest) && Plain(r.value) == AtomTree(Simple(rs, ws))
  {
    var more := ArgsText(ws, rest);
    var s := RedirsText(rs, more);
    ArgsPeek(ws, rs != [], rest);
    if rs != [] {
      ArgsEnd(ws, rest);
    }
    RedirsAll(rs, more);
    NoBlock(rs, more);
    ExecIs(s, more);
    ArgsAll([], Redirs(s).value, ws, rs != [], rest);
    assert Texts([]) + ArgsWords(ws) == ArgsWords(ws);
  }

  lemma ExecIs(s: string, more: string)
    requires !Peek(s, {'('}) && Redirs(s).Ok? && Redirs(s).rest == Skip(more)
    ensures ParseExec(s) == Args([], Redirs(s).value, more)
  {
    SkipRedirs(s);
    SkipArgs([], Redirs(s).value, more);
  }

  lemma NoBlock(rs: seq<Redirect>, more: string)
    requires RedirsOk(rs) && !Peek(more, {'('})
    ensures !Peek(RedirsText(rs, more), {'('})
  {
    if rs != [] {
      var v := OpText(rs[0].op) + (rs[0].mid + (rs[0].file + RedirsText(rs[1..], more)));
      assert v[0] == OpText(rs[0].op)[0];
      SkipGap(rs[0].gap, v);
    }
  }

  // ---- Blocks, pipelines, lines ----

  /** A symbol after a gap. */
  lemma GapSymbol(gap: string, c: char, rest: string)
    requires Blanks(gap) && Special(c) && c != '>' && c != '<'
    ensures var s := gap + ([c] + rest);
            Skip(s) == [c] + rest && GetToken(s) == (Symbol(c), Skip(rest)) && Peek(s, {c}) && forall d :: d != c ==> !Peek(s, {d})
  {
    SymbolToken(c, rest);
    SkipGap(gap, [c] + rest);
    TokenGap(gap, [c] + rest);
  }

  /** A line in parentheses and its redirections. */
  lemma BlockParts(gap: string, inner: string, close: string, tail: string, c: Cmd)
    requires Blanks(gap) && Blanks(close) && ParseLine(inner).Ok? && ParseLine(inner).value == c && Redirs(tail).Ok?
    requires ParseLine(inner).rest == Skip(close + ([')'] + tail))
    ensures ParseExec(gap + (['('] + inner)) == Ok(Wrap(c, Redirs(tail).value), Redirs(tail).rest)
  {
    GapSymbol(gap, '(', inner);
    GapSymbol(close, ')', tail);
    SkipLine(inner);
    SkipSkip(close + ([')'] + tail));
    SkipRedirs(close + ([')'] + tail));
    SkipRedirs(tail);
  }

  lemma {:induction false} AtomParses(a: Atom, rest: string)
    requires AtomOk(a) && Stops(rest, STOP)
    ensures var r := ParseExec(AtomText(a, rest)); r.Ok? && r.rest == Skip(rest) && Plain(r.value) == AtomTree(a)
    decreases a, 0
  {
    match a {
      case Simple(rs, ws) => SimpleParses(rs, ws, rest);
      case Block(gap, line, close, rs) =>
        var tail := RedirsText(rs, rest);
        StopEnds(rest);
        RedirsAll(rs, rest);
        GapSymbol(close, ')', tail);
        LineParses(line, close + ([')'] + tail));
        var inner := LineText(line, close + ([')'] + tail));
        BlockParts(gap, inner, close, tail, ParseLine(inner).value);
        WrapPlain(ParseLine(inner).value, Redirs(tail).value);
    }
  }

  lemma PipeOne(s: string, gap: string, more: string)
    requires Blanks(gap) && ParseExec(s).Ok? && ParseExec(s).rest == Skip(gap + (['|'] + more)) && ParsePipe(more).Ok?
    ensures ParsePipe(s) == Ok(Pipe(ParseExec(s).value, ParsePipe(more).value), ParsePipe(more).rest)
  {
    var u := gap + (['|'] + more);
    GapSymbol(gap, '|', more);
    SkipSkip(u);
    SkipToken(u);
    SkipLine(more);
  }

  lemma {:induction false} PipeParses(p: Pipeline, rest: string)
    requires PipeOk(p) && Stops(rest, {')', '&', ';'})
    ensures var r := ParsePipe(PipeText(p, rest)); r.Ok? && r.rest == Skip(rest) && Plain(r.value) == PipeTree(p)
    decreases p, 0
  {
    match p {
      case Single(a) =>
        AtomParses(a, rest);
        SkipSkip(rest);
      case Piped(a, gap, q) =>
        var more := PipeText(q, rest);
        GapSymbol(gap, '|', more);
        AtomParses(a, gap + (['|'] + more));
        PipeParses(q, rest);
        PipeOne(AtomText(a, gap + (['|'] + more)), gap, more);
    }
  }

  lemma {:induction false} BacksAll(c: Cmd, amps: seq<string>, rest: string)
    requires AmpsOk(amps) && Stops(rest, {')', ';'})
    ensures var b := Backs(c, AmpsText(amps, rest)); b.1 == Skip(rest) && Plain(b.0) == TBacks(Plain(c), |amps|)
    decreases |amps|
  {
    if amps != [] {
      var more := AmpsText(amps[1..], rest);
      BacksOne(c, amps[0], more);
      BacksAll(Back(c), amps[1..], rest);
    }
  }

  lemma BacksOne(c: Cmd, gap: string, more: string)
    requires Blanks(gap)
    ensures Backs(c, gap + (['&'] + more)) == Backs(Back(c), more)
  {
    GapSymbol(gap, '&', more);
    SkipBacks(Back(c), more);
  }

  lemma SkipBacks(c: Cmd, s: string)
    ensures Backs(c, Skip(s)) == Backs(c, s)
  {
    SkipSkip(s);
    SkipToken(s);
  }

  /** The '&'s of a line stop a pipeline, and what comes after them does. */
  lemma AmpsStop(amps: seq<string>, rest: string)
    requires AmpsOk(amps) && Stops(rest, {')', ';'})
    ensures Stops(AmpsText(amps, rest), {')', '&', ';'})
  {
    if amps != [] {
      GapSymbol(amps[0], '&', AmpsText(amps[1..], rest));
    }
  }

  /** A pipeline with its '&'s, followed by the end of the line or a ';'. */
  lemma {:induction false} JobParses(p: Pipeline, amps: seq<string>, rest: string)
    requires PipeOk(p) && AmpsOk(amps) && Stops(rest, {')', ';'})
    ensures var q := ParsePipe(PipeText(p, AmpsText(amps, rest)));
            && q.Ok?
            && var b := Backs(q.value, q.rest); b.1 == Skip(rest) && Plain(b.0) == TBacks(PipeTree(p), |amps|)
    decreases p, 1
  {
    var u := AmpsText(amps, rest);
    AmpsStop(amps, rest);
    PipeParses(p, u);
    var q := ParsePipe(PipeText(p, u));
    SkipBacks(q.value, u);
    BacksAll(q.value, amps, rest);
  }

  lemma ListOne(s: string, gap: string, more: string)
    requires Blanks(gap) && ParsePipe(s).Ok? && ParseLine(more).Ok?
    requires Backs(ParsePipe(s).value, ParsePipe(s).rest).1 == Skip(gap + ([';'] + more))
    ensures ParseLine(s) == Ok(List(Backs(ParsePipe(s).value, ParsePipe(s).rest).0, ParseLine(more).value), ParseLine(more).rest)
  {
    var u := gap + ([';'] + more);
    GapSymbol(gap, ';', more);
    SkipSkip(u);
    SkipToken(u);
    SkipLine(more);
  }

  lemma {:induction false} LineParses(l: Line, rest: string)
    requires LineOk(l) && Stops(rest, {')'})
    ensures var r := ParseLine(LineText(l, rest)); r.Ok? && r.rest == Skip(rest) && Plain(r.value) == LineTree(l)
    decreases l, 0
  {
    match l {
      case Last(p, amps) =>
        JobParses(p, amps, rest);
        JobAlone(LineText(l, rest), rest);
      case Before(p, amps, gap, more) =>
        var tail := LineText(more, rest);
        var u := gap + ([';'] + tail);
        GapSymbol(gap, ';', tail);
        JobParses(p, amps, u);
        LineParses(more, rest);
        ListTree(l, PipeText(p, AmpsText(amps, u)), tail, rest);
    }
  }

  lemma ListTree(l: Line, s: string, more: string, rest: string)
    requires l.Before? && Blanks(l.gap) && ParsePipe(s).Ok? && ParseLine(more).Ok?
    requires var b := Backs(ParsePipe(s).value, ParsePipe(s).rest);
             b.1 == Skip(l.gap + ([';'] + more)) && Plain(b.0) == TBacks(PipeTree(l.pipe), |l.amps|)
    requires ParseLine(more).rest == Skip(rest) && Plain(ParseLine(more).value) == LineTree(l.rest)
    ensures var r := ParseLine(s); r.Ok? && r.rest == Skip(rest) && Plain(r.value) == LineTree(l)
  {
    ListOne(s, l.gap, more);
  }

  lemma JobAlone(s: string, rest: string)
    requires ParsePipe(s).Ok? && Backs(ParsePipe(s).value, ParsePipe(s).rest).1 == Skip(rest) && Stops(rest, {')'})
    ensures ParseLine(s) == Ok(Backs(ParsePipe(s).value, ParsePipe(s).rest).0, Skip(rest))
  {
    SkipSkip(rest);
  }

  /** Whatever is in the language, with blanks at the end, is parsed into what it
      means. */
  lemma Complete(l: Line, end: string)
    requires LineOk(l) && Blanks(end)
    ensures var r := ParseCmd(LineText(l, end)); r.Ok? && Plain(r.value) == LineTree(l) && r.rest == []
  {
    assert end + [] == end;
    SkipGap(end, []);
    LineParses(l, end);
  }
}

/** What the parser has read of a text, as a form and the blanks after it. */
module ShellForms {
  import opened ShellSyntax
  import opened ShellGrammar
  import opened ShellComplete

  /** The blanks s starts with. */
  function Lead(s: string): string {
    s[..|s| - |Skip(s)|]
  }

  ghost predicate RedirsForm(s: string, rs: seq<Redirect>, b: string) {
    var r := Redirs(s);
    && r.Ok? && RedirsOk(rs) && Blanks(b) && s == RedirsText(rs, b + r.rest) && RedirsLinks(rs) == Links(r.value)
    && (rs != [] ==> EndsWord(b + r.rest)) && |b + r.rest| <= |s|
  }

  ghost predicate ArgsForm(args: seq<Word>, rs: seq<R>, s: string, ws: seq<Argument>, b: string) {
    var r := Args(args, rs, s);
    && r.Ok? && ArgsOk(ws, EndsWord(s)) && Blanks(b) && s == ArgsText(ws, b + r.rest) && |args| + |ws| < MAXARGS
    && Plain(r.value) == TWrap(TExec(Texts(args) + ArgsWords(ws)), Links(rs) + ArgsLinks(ws))
    && |b + r.rest| <= |s|
  }

  ghost predicate AtomForm(s: string, a: Atom, b: string) {
    var r := ParseExec(s);
    && r.Ok? && AtomOk(a) && Blanks(b) && s == AtomText(a, b + r.rest) && Plain(r.value) == AtomTree(a)
    && |b + r.rest| <= |s|
  }

  ghost predicate PipeForm(s: string, p: Pipeline, b: string) {
    var r := ParsePipe(s);
    && r.Ok? && PipeOk(p) && Blanks(b) && s == PipeText(p, b + r.rest) && Plain(r.value) == PipeTree(p)
    && |b + r.rest| <= |s|
  }

  ghost predicate BacksForm(c: Cmd, s: string, amps: seq<string>, b: string) {
    var r := Backs(c, s);
    && AmpsOk(amps) && Blanks(b) && s == AmpsText(amps, b + r.1) && Plain(r.0) == TBacks(Plain(c), |amps|)
    && |b + r.1| <= |s|
  }

  ghost predicate JobForm(s: string, p: Pipeline, amps: seq<string>, b: string) {
    && ParsePipe(s).Ok?
    && var r := Backs(ParsePipe(s).value, ParsePipe(s).rest);
    && PipeOk(p) && AmpsOk(amps) && Blanks(b) && s == PipeText(p, AmpsText(amps, b + r.1))
    && Plain(r.0) == TBacks(PipeTree(p), |amps|) && |b + r.1| <= |s|
  }

  ghost predicate LineForm(s: string, l: Line, b: string) {
    var r := ParseLine(s);
    && r.Ok? && LineOk(l) && Blanks(b) && s == LineText(l, b + r.rest) && Plain(r.value) == LineTree(l)
    && |b + r.rest| <= |s|
  }
}

/** Everything that is parsed is in the language. */
module ShellSound {
  import opened ShellSyntax
  import opened ShellSkips
  import opened ShellGrammar
  import opened ShellComplete
  import opened ShellForms

  lemma {:induction false} LeadIs(s: string)
    ensures Blanks(Lead(s)) && s == Lead(s) + Skip(s)
    decreases |s|
  {
    if s != [] && IsSpace(s[0]) {
      LeadIs(s[1..]);
      assert Lead(s) == [s[0]] + Lead(s[1..]);
    }
  }

  /** More blanks after b, up to the next token. */
  lemma GapText(b: string, x: string)
    requires Blanks(b)
    ensures Blanks(b + Lead(x)) && b + x == (b + Lead(x)) + Skip(x) && Skip(b + x) == Skip(x)
  {
    LeadIs(x);
    SkipGap(b, x);
  }

  // ---- Tokens ----

  lemma {:induction false} WordLenSplits(t: string)
    ensures forall k :: 0 <= k < WordLen(t) ==> IsWordChar(t[k])
    ensures EndsWord(t[WordLen(t)..])
    decreases |t|
  {
    if t != [] && IsWordChar(t[0]) {
      WordLenSplits(t[1..]);
      assert t[WordLen(t)..] == t[1..][WordLen(t[1..])..];
      assert forall k :: 0 < k < WordLen(t) ==> t[k] == t[1..][k - 1];
    }
  }

  /** A token that is a word. */
  lemma NameAt(t: string) returns (w: string, u: string)
    requires Skip(t) == t && GetToken(t).0.Arg?
    ensures t == w + u && Name(w) && EndsWord(u) && GetToken(t) == (Arg(Word(w, |u|)), Skip(u))
  {
    WordLenSplits(t);
    w, u := t[..WordLen(t)], t[WordLen(t)..];
  }

  /** The operator of a redirection. */
  lemma OpAt(t: string) returns (op: Op, v: string)
    requires Skip(t) == t && t != [] && (t[0] == '<' || t[0] == '>')
    ensures t == OpText(op) + v && GetToken(t).1 == Skip(v) && (op == From <==> GetToken(t).0 == Symbol('<'))
  {
    if t[0] == '<' {
      op, v := From, t[1..];
    } else if |t| > 1 && t[1] == '>' {
      op, v := More, t[2..];
    } else {
      op, v := To, t[1..];
    }
  }

  /** Another symbol after a gap. */
  lemma SymbolAt(s: string, c: char) returns (v: string)
    requires Special(c) && c != '>' && c != '<' && Peek(s, {c})
    ensures Skip(s) == [c] + v && s == Lead(s) + ([c] + v) && GetToken(s).1 == Skip(v) && |v| < |s|
  {
    LeadIs(s);
    SkipToken(s);
    SkipSkip(s);
    v := Skip(s)[1..];
    SymbolToken(c, v);
  }

  // ---- Redirections ----

  /** The first redirection of s, and what is left. */
  lemma RedirSound(s: string) returns (x: Redirect, y: R, u: string)
    requires Redirs(s).Ok? && Peek(s, {'<', '>'})
    ensures Redirs(u).Ok? && Redirs(s) == Ok([y] + Redirs(u).value, Redirs(u).rest) && EndsWord(u) && |u| < |s|
    ensures Blanks(x.gap) && Blanks(x.mid) && Name(x.file) && s == x.gap + (OpText(x.op) + (x.mid + (x.file + u)))
    ensures y.file.text == x.file && (y.fd == 1 <==> x.op != From)
  {
    LeadIs(s);
    SkipSkip(s);
    SkipToken(s);
    var op, v := OpAt(Skip(s));
    LeadIs(v);
    SkipSkip(v);
    var w;
    w, u := NameAt(Skip(v));
    SkipRedirs(u);
    x, y := Redirect(Lead(s), op, Lead(v), w), R(Word(w, |u|), if op == From then 0 else 1);
  }

  lemma RedirsMore(s: string, x: Redirect, y: R, u: string, rs: seq<Redirect>, b: string)
    requires RedirsForm(u, rs, b) && EndsWord(u) && |u| < |s|
    requires Redirs(s) == Ok([y] + Redirs(u).value, Redirs(u).rest)
    requires Blanks(x.gap) && Blanks(x.mid) && Name(x.file) && s == x.gap + (OpText(x.op) + (x.mid + (x.file + u)))
    requires y.file.text == x.file && (y.fd == 1 <==> x.op != From)
    ensures RedirsForm(s, [x] + rs, b)
  {
    assert ([x] + rs)[1..] == rs;
    LinksFirst([x] + rs, y, Redirs(u).value);
  }

  lemma {:induction false} RedirsSound(s: string) returns (rs: seq<Redirect>, b: string)
    requires Redirs(s).Ok?
    ensures RedirsForm(s, rs, b)
    decreases |s|
  {
    if !Peek(s, {'<', '>'}) {
      LeadIs(s);
      rs, b := [], Lead(s);
    } else {
      var x, y, u := RedirSound(s);
      rs, b := RedirsSound(u);
      RedirsMore(s, x, y, u, rs, b);
      rs := [x] + rs;
    }
  }

  // ---- Simple commands ----

  lemma SameArgs(args: seq<Word>, rs: seq<R>, b: string, x: string)
    requires Blanks(b)
    ensures Args(args, rs, b + x) == Args(args, rs, x)
  {
    SkipGap(b, x);
    SkipArgs(args, rs, x);
    SkipArgs(args, rs, b + x);
  }

  /** The first argument of s with its redirections, and what is left. */
  lemma ArgSound(args: seq<Word>, rs: seq<R>, s: string) returns (a: Argument, w: Word, rs1: seq<R>, next: string)
    requires Args(args, rs, s).Ok? && !Stops(s, STOP)
    ensures Blanks(a.gap) && Name(a.word) && RedirsOk(a.redirects) && (EndsWord(s) ==> a.gap != [])
    ensures s == a.gap + (a.word + RedirsText(a.redirects, next)) && EndsWord(next) && |next| < |s|
    ensures w.text == a.word && Links(rs1) == RedirsLinks(a.redirects) && |args| + 1 < MAXARGS
    ensures Args(args, rs, s) == Args(args + [w], rs + rs1, next)
  {
    LeadIs(s);
    SkipSkip(s);
    SkipToken(s);
    var word, u := NameAt(Skip(s));
    SkipRedirs(u);
    var redirects, b1 := RedirsSound(u);
    w, rs1, next := Word(word, |u|), Redirs(u).value, b1 + Redirs(u).rest;
    SameArgs(args + [w], rs + rs1, b1, Redirs(u).rest);
    a := Argument(Lead(s), word, redirects);
    assert a.gap == [] ==> s == Skip(s);
  }

  lemma ArgsMore(args: seq<Word>, rs: seq<R>, s: string, a: Argument, w: Word, rs1: seq<R>, next: string,
                 ws: seq<Argument>, b: string)
    requires ArgsForm(args + [w], rs + rs1, next, ws, b) && EndsWord(next) && |next| < |s|
    requires Blanks(a.gap) && Name(a.word) && RedirsOk(a.redirects) && (EndsWord(s) ==> a.gap != [])
    requires s == a.gap + (a.word + RedirsText(a.redirects, next))
    requires w.text == a.word && Links(rs1) == RedirsLinks(a.redirects)
    requires Args(args, rs, s) == Args(args + [w], rs + rs1, next)
    ensures ArgsForm(args, rs, s, [a] + ws, b)
  {
    assert ([a] + ws)[1..] == ws;
    ArgsOkMore(a, ws, EndsWord(s));
    ArgsJoin(args, rs, w, rs1, [a] + ws);
  }

  lemma ArgsOkMore(a: Argument, ws: seq<Argument>, after: bool)
    requires ArgsOk(ws, true) && Blanks(a.gap) && Name(a.word) && RedirsOk(a.redirects) && (after ==> a.gap != [])
    ensures ArgsOk([a] + ws, after)
  {
  }

  lemma {:induction false} ArgsSound(args: seq<Word>, rs: seq<R>, s: string) returns (ws: seq<Argument>, b: string)
    requires Args(args, rs, s).Ok? && |args| < MAXARGS
    ensures ArgsForm(args, rs, s, ws, b)
    decreases |s|
  {
    if Stops(s, STOP) {
      ws, b := [], Lead(s);
      NoArgs(args, rs, s);
    } else {
      var a, w, rs1, next := ArgSound(args, rs, s);
      ws, b := ArgsSound(args + [w], rs + rs1, next);
      ArgsMore(args, rs, s, a, w, rs1, next, ws, b);
      ws := [a] + ws;
    }
  }

  lemma NoArgs(args: seq<Word>, rs: seq<R>, s: string)
    requires Stops(s, STOP) && |args| < MAXARGS
    ensures ArgsForm(args, rs, s, [], Lead(s))
  {
    LeadIs(s);
    Stopped(args, rs, s);
    WrapPlain(Exec(args), rs);
    assert Texts(args) + ArgsWords([]) == Texts(args) && Links(rs) + ArgsLinks([]) == Links(rs);
  }

  lemma SimpleSound(s: string) returns (a: Atom, b: string)
    requires ParseExec(s).Ok? && !Peek(s, {'('})
    ensures AtomForm(s, a, b)
  {
    SkipRedirs(s);
    var rs, b1 := RedirsSound(s);
    var more := Redirs(s);
    SameArgs([], more.value, b1, more.rest);
    var ws;
    ws, b := ArgsSound([], more.value, b1 + more.rest);
    a := Simple(rs, ws);
    SimpleForms(s, rs, b1, ws, b);
  }

  lemma SimpleForms(s: string, rs: seq<Redirect>, b1: string, ws: seq<Argument>, b: string)
    requires RedirsForm(s, rs, b1) && ArgsForm([], Redirs(s).value, b1 + Redirs(s).rest, ws, b)
    requires ParseExec(s) == Args([], Redirs(s).value, b1 + Redirs(s).rest)
    ensures AtomForm(s, Simple(rs, ws), b)
  {
    assert Texts([]) + ArgsWords(ws) == ArgsWords(ws);
    assert ArgsOk(ws, rs != []);
  }

  // ---- Blocks, pipelines, lines ----

  lemma {:induction false} AtomSound(s: string) returns (a: Atom, b: string)
    requires ParseExec(s).Ok?
    ensures AtomForm(s, a, b)
    decreases |s|, 1
  {
    if Peek(s, {'('}) {
      a, b := BlockSound(s);
    } else {
      a, b := SimpleSound(s);
    }
  }

  lemma {:induction false} BlockSound(s: string) returns (a: Atom, b: string)
    requires ParseExec(s).Ok? && Peek(s, {'('})
    ensures AtomForm(s, a, b)
    decreases |s|, 0
  {
    var v := SymbolAt(s, '(');
    SkipLine(v);
    var l, b1 := LineSound(v);
    var z := SymbolAt(ParseLine(v).rest, ')');
    SkipRedirs(z);
    var rs;
    rs, b := RedirsSound(z);
    a := Block(Lead(s), l, b1 + Lead(ParseLine(v).rest), rs);
    BlockForms(s, v, l, b1, z, rs, b);
  }

  lemma BlockForms(s: string, v: string, l: Line, b1: string, z: string, rs: seq<Redirect>, b: string)
    requires s == Lead(s) + (['('] + v) && LineForm(v, l, b1) && RedirsForm(z, rs, b)
    requires Skip(ParseLine(v).rest) == [')'] + z
    requires ParseExec(s) == Ok(Wrap(ParseLine(v).value, Redirs(z).value), Redirs(z).rest)
    ensures AtomForm(s, Block(Lead(s), l, b1 + Lead(ParseLine(v).rest), rs), b)
  {
    LeadIs(s);
    GapText(b1, ParseLine(v).rest);
    WrapPlain(ParseLine(v).value, Redirs(z).value);
  }

  lemma {:induction false} PipeSound(s: string) returns (p: Pipeline, b: string)
    requires ParsePipe(s).Ok?
    ensures PipeForm(s, p, b)
    decreases |s|, 2
  {
    var a, b1 := AtomSound(s);
    var y := ParseExec(s).rest;
    GapText(b1, y);
    if !Peek(y, {'|'}) {
      p, b := Single(a), b1 + Lead(y);
    } else {
      var more := SymbolAt(y, '|');
      SkipLine(more);
      var q;
      q, b := PipeSound(more);
      p := Piped(a, b1 + Lead(y), q);
      PipeMore(s, a, b1, p.gap, more, q, b);
    }
  }

  lemma PipeMore(s: string, a: Atom, b1: string, gap: string, more: string, q: Pipeline, b: string)
    requires AtomForm(s, a, b1) && PipeForm(more, q, b) && |more| <= |s|
    requires Blanks(gap) && b1 + ParseExec(s).rest == gap + (['|'] + more)
    requires ParsePipe(s) == Ok(Pipe(ParseExec(s).value, ParsePipe(more).value), ParsePipe(more).rest)
    ensures PipeForm(s, Piped(a, gap, q), b)
  {
  }

  lemma SameBacks(c: Cmd, b: string, x: string)
    requires Blanks(b)
    ensures Backs(c, b + x) == Backs(c, x)
  {
    SkipGap(b, x);
    SkipBacks(c, x);
    SkipBacks(c, b + x);
  }

  lemma {:induction false} BacksSound(c: Cmd, s: string) returns (amps: seq<string>, b: string)
    ensures BacksForm(c, s, amps, b)
    decreases |s|
  {
    LeadIs(s);
    if !Peek(s, {'&'}) {
      amps, b := [], Lead(s);
    } else {
      var more := SymbolAt(s, '&');
      SkipBacks(Back(c), more);
      amps, b := BacksSound(Back(c), more);
      BacksMore(c, s, Lead(s), more, amps, b);
      amps := [Lead(s)] + amps;
    }
  }

  lemma BacksMore(c: Cmd, s: string, gap: string, more: string, amps: seq<string>, b: string)
    requires BacksForm(Back(c), more, amps, b) && Backs(c, s) == Backs(Back(c), more) && |more| <= |s|
    requires Blanks(gap) && s == gap + (['&'] + more)
    ensures BacksForm(c, s, [gap] + amps, b)
  {
    AmpsMore(gap, amps, b + Backs(c, s).1);
  }

  lemma AmpsMore(gap: string, amps: seq<string>, rest: string)
    ensures AmpsText([gap] + amps, rest) == gap + (['&'] + AmpsText(amps, rest))
  {
    assert ([gap] + amps)[1..] == amps;
  }

  /** A pipeline with its '&'s. */
  lemma {:induction false} JobSound(s: string) returns (p: Pipeline, amps: seq<string>, b: string)
    requires ParsePipe(s).Ok?
    ensures JobForm(s, p, amps, b)
    decreases |s|, 3
  {
    var q := ParsePipe(s);
    var b1;
    p, b1 := PipeSound(s);
    SameBacks(q.value, b1, q.rest);
    amps, b := BacksSound(q.value, b1 + q.rest);
  }

  lemma {:induction false} LineSound(s: string) returns (l: Line, b: string)
    requires ParseLine(s).Ok?
    ensures LineForm(s, l, b)
    decreases |s|, 4
  {
    var p, amps, b2 := JobSound(s);
    var y := Backs(ParsePipe(s).value, ParsePipe(s).rest).1;
    if !Peek(y, {';'}) {
      l, b := Last(p, amps), b2 + Lead(y);
      LineLast(s, p, amps, b2);
    } else {
      var more := SymbolAt(y, ';');
      ListOnly(s, more);
      var l1;
      l1, b := LineSound(more);
      l := Before(p, amps, b2 + Lead(y), l1);
      GapText(b2, y);
      LineMore(s, p, amps, b2, l.gap, more, l1, b);
    }
  }

  lemma ListOnly(s: string, more: string)
    requires ParseLine(s).Ok? && ParsePipe(s).Ok?
    requires var y := Backs(ParsePipe(s).value, ParsePipe(s).rest).1; Peek(y, {';'}) && GetToken(y).1 == Skip(more)
    ensures ParseLine(more).Ok? && ParseLine(s) ==
            Ok(List(Backs(ParsePipe(s).value, ParsePipe(s).rest).0, ParseLine(more).value), ParseLine(more).rest)
  {
    SkipLine(more);
  }

  lemma LineLast(s: string, p: Pipeline, amps: seq<string>, b: string)
    requires JobForm(s, p, amps, b) && !Peek(Backs(ParsePipe(s).value, ParsePipe(s).rest).1, {';'})
    ensures LineForm(s, Last(p, amps), b + Lead(Backs(ParsePipe(s).value, ParsePipe(s).rest).1))
  {
    GapText(b, Backs(ParsePipe(s).value, ParsePipe(s).rest).1);
  }

  lemma LineMore(s: string, p: Pipeline, amps: seq<string>, b2: string, gap: string, more: string, l: Line, b: string)
    requires JobForm(s, p, amps, b2) && LineForm(more, l, b) && |more| <= |s| && Blanks(gap)
    requires var c := Backs(ParsePipe(s).value, ParsePipe(s).rest);
             && b2 + c.1 == gap + ([';'] + more)
             && ParseLine(s) == Ok(List(c.0, ParseLine(more).value), ParseLine(more).rest)
    ensures LineForm(s, Before(p, amps, gap, l), b)
  {
  }

  /** A line typed, with blanks at the end. */
  ghost predicate Typed(s: string, l: Line, end: string) {
    LineOk(l) && Blanks(end) && s == LineText(l, end)
  }

  lemma Sound(s: string) returns (l: Line, end: string)
    requires ParseCmd(s).Ok?
    ensures Typed(s, l, end) && Plain(ParseCmd(s).value) == LineTree(l)
  {
    var b;
    l, b := LineSound(s);
    var rest := ParseLine(s).rest;
    GapText(b, rest);
    end := b + Lead(rest);
    assert end + [] == end;
  }

  /** A line is parsed if and only if it is in the language, and always into what
      it means. */
  lemma ParsesExactly(s: string)
    ensures ParseCmd(s).Ok? <==> exists l: Line, end: string :: Typed(s, l, end)
    ensures forall l: Line, end: string :: Typed(s, l, end) ==> ParseCmd(s).Ok? && Plain(ParseCmd(s).value) == LineTree(l)
  {
    forall l: Line, end: string | Typed(s, l, end)
      ensures ParseCmd(s).Ok? && Plain(ParseCmd(s).value) == LineTree(l)
    {
      Complete(l, end);
    }
    if ParseCmd(s).Ok? {
      var l, end := Sound(s);
    }
  }
}
