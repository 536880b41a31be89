/** The shell's parser as it runs: a cursor that moves over the line, and the
    line cut into strings in place. */
module ShellWords {
  import opened ShellSyntax

  /** s is what is left of line from some point on. */
  predicate Suffix(s: string, line: string) {
    |s| <= |line| && s == line[|line| - |s|..]
  }

  /** The word stands in the line where it says, whole. */
  predicate Stands(w: Word, line: string) {
    && w.left + |w.text| <= |line| && w.text != []
    && line[|line| - w.left - |w.text|..|line| - w.left] == w.text
    && (forall k :: 0 <= k < |w.text| ==> IsWordChar(w.text[k]))
    && (w.left > 0 ==> !IsWordChar(line[|line| - w.left]))
  }

  /** So do all words of the command; it has no more than sh can run, and it
      redirects standard input and output only. */
  predicate AllStand(c: Cmd, line: string) {
    match c
    case Exec(args) => |args| < MAXARGS && forall k :: 0 <= k < |args| ==> Stands(args[k], line)
    case Redir(d, file, fd) => AllStand(d, line) && Stands(file, line) && fd <= 1
    case Pipe(l, r) => AllStand(l, line) && AllStand(r, line)
    case List(l, r) => AllStand(l, line) && AllStand(r, line)
    case Back(j) => AllStand(j, line)
  }

  predicate LinksStand(rs: seq<R>, line: string) {
    forall k :: 0 <= k < |rs| ==> Stands(rs[k].file, line) && rs[k].fd <= 1
  }

  lemma TailSuffix(s: string, k: nat, line: string)
    requires Suffix(s, line) && k <= |s|
    ensures Suffix(s[k..], line)
  {
  }

  lemma {:induction false} SkipSuffix(s: string, line: string)
    requires Suffix(s, line)
    ensures Suffix(Skip(s), line)
    decreases |s|
  {
    if s != [] && IsSpace(s[0]) {
      TailSuffix(s, 1, line);
      SkipSuffix(s[1..], line);
    }
  }

  lemma {:induction false} WordLenIs(s: string)
    ensures forall k :: 0 <= k < WordLen(s) ==> IsWordChar(s[k])
    ensures WordLen(s) < |s| ==> !IsWordChar(s[WordLen(s)])
    decreases |s|
  {
    if s != [] && IsWordChar(s[0]) {
      WordLenIs(s[1..]);
      forall k | 0 <= k < WordLen(s)
        ensures IsWordChar(s[k])
      {
        if k > 0 {
          assert s[k] == s[1..][k - 1];
        }
      }
    }
  }

  lemma WordStands(t: string, n: nat, line: string)
    requires Suffix(t, line) && 0 < n <= |t| && (forall k :: 0 <= k < n ==> IsWordChar(t[k]))
    requires n < |t| ==> !IsWordChar(t[n])
    ensures Stands(Word(t[..n], |t| - n), line)
  {
    var d := |line| - |t|;
    assert line[d..d + n] == t[..n];
    assert n < |t| ==> line[d + n] == t[n];
  }

  lemma TokenStands(s: string, line: string)
    requires Suffix(s, line)
    ensures Suffix(GetToken(s).1, line)
    ensures GetToken(s).0.Arg? ==> Stands(GetToken(s).0.w, line)
  {
    SkipSuffix(s, line);
    var t := Skip(s);
    if t != [] {
      if t[0] == '>' && |t| > 1 && t[1] == '>' {
        TailSuffix(t, 2, line);
        SkipSuffix(t[2..], line);
      } else if IsSymbol(t[0]) {
        TailSuffix(t, 1, line);
        SkipSuffix(t[1..], line);
      } else {
        WordLenIs(t);
        TailSuffix(t, WordLen(t), line);
        SkipSuffix(t[WordLen(t)..], line);
        WordStands(t, WordLen(t), line);
      }
    }
  }

  lemma {:induction false} RedirsStand(s: string, line: string)
    requires Suffix(s, line)
    ensures Redirs(s).Ok? ==> Suffix(Redirs(s).rest, line) && LinksStand(Redirs(s).value, line)
    decreases |s|
  {
    if Peek(s, {'<', '>'}) {
      TokenStands(s, line);
      var op := GetToken(s);
      TokenStands(op.1, line);
      var file := GetToken(op.1);
      if file.0.Arg? {
        RedirsStand(file.1, line);
      }
    } else {
      SkipSuffix(s, line);
    }
  }

  lemma {:induction false} WrapStands(c: Cmd, rs: seq<R>, line: string)
    requires AllStand(c, line) && LinksStand(rs, line)
    ensures AllStand(Wrap(c, rs), line)
    decreases |rs|
  {
    if rs != [] {
      WrapStands(c, rs[..|rs| - 1], line);
    }
  }

  lemma {:induction false} ArgsStand(args: seq<Word>, rs: seq<R>, s: string, line: string)
    requires Suffix(s, line) && AllStand(Exec(args), line) && LinksStand(rs, line)
    ensures var r := Args(args, rs, s); r.Ok? ==> Suffix(r.rest, line) && AllStand(r.value, line)
    decreases |s|
  {
    SkipSuffix(s, line);
    TokenStands(s, line);
    WrapStands(Exec(args), rs, line);
    var tok := GetToken(s);
    if !Peek(s, {'|', ')', '&', ';'}) && tok.0.Arg? && |args| + 1 < MAXARGS {
      RedirsStand(tok.1, line);
      var more := Redirs(tok.1);
      if more.Ok? {
        ArgsStand(args + [tok.0.w], rs + more.value, more.rest, line);
      }
    }
  }

  lemma {:induction false} BacksStand(c: Cmd, s: string, line: string)
    requires Suffix(s, line) && AllStand(c, line)
    ensures var b := Backs(c, s); Suffix(b.1, line) && AllStand(b.0, line)
    decreases |s|
  {
    SkipSuffix(s, line);
    if Peek(s, {'&'}) {
      TokenStands(s, line);
      BacksStand(Back(c), GetToken(s).1, line);
    }
  }

  lemma {:induction false} ExecStands(s: string, line: string)
    requires Suffix(s, line)
    ensures var r := ParseExec(s); r.Ok? ==> Suffix(r.rest, line) && AllStand(r.value, line)
    decreases |s|, 1
  {
    if Peek(s, {'('}) {
      BlockStands(s, line);
    } else {
      SkipSuffix(s, line);
      RedirsStand(Skip(s), line);
      var rs := Redirs(Skip(s));
      if rs.Ok? {
        ArgsStand([], rs.value, rs.rest, line);
      }
    }
  }

  lemma {:induction false} BlockStands(s: string, line: string)
    requires Suffix(s, line) && Peek(s, {'('})
    ensures var r := ParseBlock(s); r.Ok? ==> Suffix(r.rest, line) && AllStand(r.value, line)
    decreases |s|, 0
  {
    TokenStands(s, line);
    LineStands(GetToken(s).1, line);
    var inner := ParseLine(GetToken(s).1);
    if inner.Ok? && Peek(inner.rest, {')'}) {
      TokenStands(inner.rest, line);
      var after := GetToken(inner.rest).1;
      RedirsStand(after, line);
      if Redirs(after).Ok? {
        WrapStands(inner.value, Redirs(after).value, line);
      }
    }
  }

  lemma {:induction false} PipeStands(s: string, line: string)
    requires Suffix(s, line)
    ensures var r := ParsePipe(s); r.Ok? ==> Suffix(r.rest, line) && AllStand(r.value, line)
    decreases |s|, 2
  {
    ExecStands(s, line);
    var left := ParseExec(s);
    if left.Ok? {
      SkipSuffix(left.rest, line);
    }
    if left.Ok? && Peek(left.rest, {'|'}) {
      TokenStands(left.rest, line);
      PipeStands(GetToken(left.rest).1, line);
    }
  }

  lemma {:induction false} LineStands(s: string, line: string)
    requires Suffix(s, line)
    ensures var r := ParseLine(s); r.Ok? ==> Suffix(r.rest, line) && AllStand(r.value, line)
    decreases |s|, 3
  {
    PipeStands(s, line);
    var p := ParsePipe(s);
    if p.Ok? {
      BacksStand(p.value, p.rest, line);
      var b := Backs(p.value, p.rest);
      SkipSuffix(b.1, line);
      if Peek(b.1, {';'}) {
        TokenStands(b.1, line);
        LineStands(GetToken(b.1).1, line);
      }
    }
  }

  /** Every word of a parsed command is a whole word of the line. */
  lemma CmdStands(line: string)
    ensures var r := ParseCmd(line); r.Ok? ==> AllStand(r.value, line)
  {
    assert line[0..] == line;
    LineStands(line, line);
  }
}

module ShellParser {
  import opened ShellSyntax
  import opened ShellWords
  import opened ShellSkips
  import opened ShellGrammar
  import opened ShellSound
  import opened ShellPrinter
  import opened ShellRoundTrip

  class Parser {
    const line: string
    var pos: nat

    ghost predicate Valid()
      reads this
    {
      pos <= |line|
    }

    /** What is left of the line. */
    ghost function Left(): string
      requires Valid()
      reads this
    {
      line[pos..]
    }

    constructor (line: string)
      ensures Valid() && this.line == line && Left() == line
    {
      this.line := line;
      pos := 0;
    }

    method SkipBlanks()
      requires Valid()
      modifies this
      ensures Valid() && Left() == Skip(old(Left()))
    {
      while pos < |line| && IsSpace(line[pos])
        invariant Valid() && Skip(Left()) == Skip(old(Left()))
      {
        assert Left()[1..] == line[pos + 1..];
        pos := pos + 1;
      }
    }

    method PeekAt(toks: set<char>) returns (r: bool)
      requires Valid()
      modifies this
      ensures Valid() && Left() == Skip(old(Left())) && r == Peek(old(Left()), toks)
    {
      SkipBlanks();
      r := pos < |line| && line[pos] in toks;
    }

    method SkipWord() returns (w: Word)
      requires Valid() && Left() != [] && IsWordChar(Left()[0])
      modifies this
      ensures Valid() && w == Word(old(Left())[..WordLen(old(Left()))], |old(Left())| - WordLen(old(Left())))
      ensures Left() == old(Left())[WordLen(old(Left()))..]
    {
      var q := pos;
      while pos < |line| && IsWordChar(line[pos])
        invariant Valid() && q <= pos
        invariant WordLen(old(Left())) == pos - q + WordLen(Left())
      {
        assert Left()[1..] == line[pos + 1..];
        pos := pos + 1;
      }
      w := Word(line[q..pos], |line| - pos);
    }

    method NextToken() returns (tok: Token)
      requires Valid()
      modifies this
      ensures Valid() && (tok, Left()) == GetToken(old(Left()))
    {
      SkipBlanks();
      ghost var t := Left();
      if pos == |line| {
        tok := End;
        return;
      }
      if IsSymbol(line[pos]) {
        tok := Symbol(line[pos]);
        pos := pos + 1;
        assert Left() == t[1..];
        if tok == Symbol('>') && pos < |line| && line[pos] == '>' {
          tok := Append;
          pos := pos + 1;
          assert Left() == t[2..];
        }
      } else {
        var w := SkipWord();
        tok := Arg(w);
      }
      SkipBlanks();
    }

    /** parseredirs, on the redirections alone. */
    method ParseRedirections() returns (ok: bool, rs: seq<R>)
      requires Valid()
      modifies this
      ensures Valid() && Redirs(old(Left())) == if ok then Ok(rs, Left()) else Panic
    {
      rs := [];
      ghost var s := Left();
      var more := PeekAt({'<', '>'});
      SkipRedirs(s);
      SkipSkip(s);
      PrependNone(Redirs(s));
      while more
        invariant Valid() && more == Peek(Left(), {'<', '>'}) && Left() == Skip(Left())
        invariant Redirs(s) == Prepend(rs, Redirs(Left()))
        decreases |line| - pos
      {
        var x;
        ghost var t := Left();
        ok, x := ParseRedirection();
        if !ok {
          return;
        }
        ghost var u := Left();
        PrependOne(rs, x, Redirs(u));
        rs := rs + [x];
        more := PeekAt({'<', '>'});
        SkipRedirs(u);
        SkipSkip(u);
      }
      assert rs + [] == rs;
      ok := true;
    }

    method ParseRedirection() returns (ok: bool, x: R)
      requires Valid() && Peek(Left(), {'<', '>'})
      modifies this
      ensures Valid() && |Left()| < |old(Left())|
      ensures Redirs(old(Left())) == if ok then Prepend([x], Redirs(Left())) else Panic
    {
      x := R(Word([], 0), 0);
      var op := NextToken();
      var file := NextToken();
      ok := file.Arg?;
      if ok {
        x := R(file.w, if op == Symbol('<') then 0 else 1);
      }
    }

    method ParseExecCmd() returns (ok: bool, c: Cmd)
      requires Valid()
      modifies this
      ensures Valid() && ParseExec(old(Left())) == if ok then Ok(c, Left()) else Panic
      decreases |line| - pos, 1
    {
      ghost var s := Left();
      c := Exec([]);
      var block := PeekAt({'('});
      if block {
        SkipExec(s);
        SkipSkip(s);
        ok, c := ParseBlockCmd();
        return;
      }
      var args: seq<Word> := [];
      var rs;
      ok, rs := ParseRedirections();
      if !ok {
        return;
      }
      var stop := PeekAt({'|', ')', '&', ';'});
      SkipAllArgs(args, rs, s);
      while !stop
        invariant Valid() && stop == Peek(Left(), {'|', ')', '&', ';'}) && Left() == Skip(Left())
        invariant |args| < MAXARGS && ParseExec(s) == Args(args, rs, Left())
        decreases |line| - pos
      {
        var tok := NextToken();
        if tok == End {
          break;
        }
        if !tok.Arg? {
          return false, c;
        }
        if |args| + 1 >= MAXARGS {
          return false, c;
        }
        args := args + [tok.w];
        var more;
        ok, more := ParseRedirections();
        if !ok {
          return;
        }
        rs := rs + more;
        ghost var u := Left();
        stop := PeekAt({'|', ')', '&', ';'});
        SkipArgs(args, rs, u);
        SkipSkip(u);
      }
      c := Wrap(Exec(args), rs);
      ok := true;
    }

    method ParseBlockCmd() returns (ok: bool, c: Cmd)
      requires Valid() && Peek(Left(), {'('})
      modifies this
      ensures Valid() && ParseBlock(old(Left())) == if ok then Ok(c, Left()) else Panic
      decreases |line| - pos, 0
    {
      var open := NextToken();
      ok, c := ParseLineCmd();
      if !ok {
        return;
      }
      ghost var inner := Left();
      var closed := PeekAt({')'});
      if !closed {
        return false, c;
      }
      SkipRedirs(inner);
      var close := NextToken();
      var rs;
      ok, rs := ParseRedirections();
      c := Wrap(c, rs);
    }

    method ParsePipeCmd() returns (ok: bool, c: Cmd)
      requires Valid()
      modifies this
      ensures Valid() && ParsePipe(old(Left())) == if ok then Ok(c, Left()) else Panic
      decreases |line| - pos, 2
    {
      ok, c := ParseExecCmd();
      if !ok {
        return;
      }
      ghost var left := Left();
      var more := PeekAt({'|'});
      SkipRedirs(left);
      if more {
        var bar := NextToken();
        var right;
        ok, right := ParsePipeCmd();
        c := Pipe(c, right);
      }
    }

    method ParseLineCmd() returns (ok: bool, c: Cmd)
      requires Valid()
      modifies this
      ensures Valid() && ParseLine(old(Left())) == if ok then Ok(c, Left()) else Panic
      decreases |line| - pos, 3
    {
      ok, c := ParsePipeCmd();
      if !ok {
        return;
      }
      ghost var b := Backs(c, Left());
      ghost var t := Left();
      var amp := PeekAt({'&'});
      while amp
        invariant Valid() && amp == Peek(Left(), {'&'}) && Left() == Skip(Left()) && Backs(c, Left()) == b
        decreases |line| - pos
      {
        var tok := NextToken();
        c := Back(c);
        amp := PeekAt({'&'});
      }
      var semi := PeekAt({';'});
      if semi {
        var tok := NextToken();
        var rest;
        ok, rest := ParseLineCmd();
        c := List(c, rest);
      }
    }

    /** parsecmd, but for nulterminate. */
    method ParseAll() returns (ok: bool, c: Cmd)
      requires Valid() && pos == 0
      modifies this
      ensures Valid() && ParseCmd(line) == if ok then Ok(c, []) else Panic
      ensures ok <==> exists l: Line, end: string :: Typed(line, l, end)
      ensures forall l: Line, end: string :: Typed(line, l, end) ==> Plain(c) == LineTree(l)
    {
      ParsesExactly(line);
      ok, c := ParseLineCmd();
      SkipBlanks();
      ok := ok && pos == |line|;
    }
  }

  function Prepend(rs: seq<R>, r: Parsed<seq<R>>): Parsed<seq<R>> {
    if r.Panic? then Panic else Ok(rs + r.value, r.rest)
  }

  lemma PrependNone(r: Parsed<seq<R>>)
    ensures Prepend([], r) == r
  {
    if r.Ok? {
      assert [] + r.value == r.value;
    }
  }

  /** The loop of parseexec starts where parseexec does. */
  lemma SkipAllArgs(args: seq<Word>, rs: seq<R>, s: string)
    requires args == [] && !Peek(s, {'('}) && Redirs(Skip(s)).Ok? && Redirs(Skip(s)).value == rs
    ensures ParseExec(s) == Args(args, rs, Skip(Redirs(Skip(s)).rest))
    ensures Skip(Skip(Redirs(Skip(s)).rest)) == Skip(Redirs(Skip(s)).rest)
  {
    SkipArgs(args, rs, Redirs(Skip(s)).rest);
    SkipSkip(Redirs(Skip(s)).rest);
  }

  lemma PrependOne(rs: seq<R>, x: R, r: Parsed<seq<R>>)
    ensures Prepend(rs + [x], r) == Prepend(rs, Prepend([x], r))
  {
    if r.Ok? {
      assert (rs + [x]) + r.value == rs + ([x] + r.value);
    }
  }

  // ---- nulterminate ----

  /** Where the words of a command end in a line of n characters. */
  function Ends(c: Cmd, n: nat): set<int> {
    match c
    case Exec(args) => set k | 0 <= k < |args| :: n - args[k].left
    case Redir(d, file, _) => Ends(d, n) + {n - file.left}
    case Pipe(l, r) => Ends(l, n) + Ends(r, n)
    case List(l, r) => Ends(l, n) + Ends(r, n)
    case Back(j) => Ends(j, n)
  }

  /** The line with a NUL at each of the given places. */
  ghost predicate Cut(before: seq<char>, after: seq<char>, ends: set<int>) {
    |after| == |before| && forall k :: 0 <= k < |before| ==> after[k] == if k in ends then '\0' else before[k]
  }

  lemma CutTwice(a: seq<char>, b: seq<char>, c: seq<char>, e: set<int>, f: set<int>)
    requires Cut(a, b, e) && Cut(b, c, f)
    ensures Cut(a, c, e + f)
  {
  }

  /** Write a NUL after every word of the command. */
  method NulTerminate(buf: array<char>, c: Cmd, ghost line: string)
    requires buf.Length == |line| + 1 && AllStand(c, line)
    modifies buf
    ensures Cut(old(buf[..]), buf[..], Ends(c, |line|))
  {
    var n := buf.Length - 1;
    match c {
      case Exec(args) =>
        NulArgs(buf, args, line);
      case Redir(d, file, _) =>
        NulTerminate(buf, d, line);
        ghost var mid := buf[..];
        buf[n - file.left] := '\0';
        CutTwice(old(buf[..]), mid, buf[..], Ends(d, n), {n - file.left});
      case Pipe(l, r) =>
        NulTerminate(buf, l, line);
        ghost var mid := buf[..];
        NulTerminate(buf, r, line);
        CutTwice(old(buf[..]), mid, buf[..], Ends(l, n), Ends(r, n));
      case List(l, r) =>
        NulTerminate(buf, l, line);
        ghost var mid := buf[..];
        NulTerminate(buf, r, line);
        CutTwice(old(buf[..]), mid, buf[..], Ends(l, n), Ends(r, n));
      case Back(j) =>
        NulTerminate(buf, j, line);
    }
  }

  method NulArgs(buf: array<char>, args: seq<Word>, ghost line: string)
    requires buf.Length == |line| + 1 && AllStand(Exec(args), line)
    modifies buf
    ensures Cut(old(buf[..]), buf[..], Ends(Exec(args), |line|))
  {
    var n := buf.Length - 1;
    var i := 0;
    while i < |args|
      invariant 0 <= i <= |args|
      invariant Cut(old(buf[..]), buf[..], set k | 0 <= k < i :: n - args[k].left)
    {
      assert Stands(args[i], line);
      buf[n - args[i].left] := '\0';
      i := i + 1;
    }
  }

  // ---- What is parsed is legal ----

  lemma StandsLegalWord(w: Word, line: string)
    requires Stands(w, line) && '\0' !in line
    ensures LegalWord(w.text)
  {
    forall k | 0 <= k < |w.text|
      ensures w.text[k] != '\0'
    {
      assert w.text[k] == line[|line| - w.left - |w.text| + k];
    }
  }

  lemma {:induction false} StandsLegal(c: Cmd, line: string)
    requires AllStand(c, line) && '\0' !in line
    ensures Legal(Plain(c))
  {
    match c
    case Exec(args) =>
      forall k | 0 <= k < |args|
        ensures LegalWord(Texts(args)[k])
      {
        StandsLegalWord(args[k], line);
      }
    case Redir(d, file, _) =>
      StandsLegal(d, line);
      StandsLegalWord(file, line);
    case Pipe(l, r) =>
      StandsLegal(l, line);
      StandsLegal(r, line);
    case List(l, r) =>
      StandsLegal(l, line);
      StandsLegal(r, line);
    case Back(j) =>
      StandsLegal(j, line);
  }

  /** Every tree the parser builds from a line is legal ... */
  lemma ParsedLegal(line: string)
    requires '\0' !in line && ParseCmd(line).Ok?
    ensures Legal(Plain(ParseCmd(line).value))
  {
    CmdStands(line);
    StandsLegal(ParseCmd(line).value, line);
  }

  /** ... so parsing, printing and parsing again gives the same tree. */
  lemma ParsePrintParse(line: string)
    requires '\0' !in line && ParseCmd(line).Ok?
    ensures var t := Plain(ParseCmd(line).value);
            var r := ParseCmd(Print(t)); r.Ok? && Plain(r.value) == t && r.rest == []
  {
    ParsedLegal(line);
    RoundTrip(Plain(ParseCmd(line).value));
  }

  /** The C string that starts at q. */
  function CString(b: seq<char>, q: nat): string
    decreases |b| - q
  {
    if q >= |b| || b[q] == '\0' then [] else [b[q]] + CString(b, q + 1)
  }

  predicate Mentions(c: Cmd, w: Word) {
    match c
    case Exec(args) => w in args
    case Redir(d, file, _) => Mentions(d, w) || w == file
    case Pipe(l, r) => Mentions(l, w) || Mentions(r, w)
    case List(l, r) => Mentions(l, w) || Mentions(r, w)
    case Back(j) => Mentions(j, w)
  }

  lemma {:induction false} MentionedStands(c: Cmd, w: Word, line: string)
    requires AllStand(c, line) && Mentions(c, w)
    ensures Stands(w, line) && |line| - w.left in Ends(c, |line|)
  {
    match c {
      case Exec(args) =>
        var k :| 0 <= k < |args| && args[k] == w;
      case Redir(d, file, _) => if w != file { MentionedStands(d, w, line); }
      case Pipe(l, r) => if Mentions(l, w) { MentionedStands(l, w, line); } else { MentionedStands(r, w, line); }
      case List(l, r) => if Mentions(l, w) { MentionedStands(l, w, line); } else { MentionedStands(r, w, line); }
      case Back(j) => MentionedStands(j, w, line);
    }
  }

  /** No word ends inside another. */
  lemma {:induction false} EndsOutside(c: Cmd, w: Word, line: string, e: int)
    requires AllStand(c, line) && Stands(w, line) && e in Ends(c, |line|)
    ensures !(|line| - w.left - |w.text| <= e < |line| - w.left)
  {
    match c {
      case Exec(args) =>
        var k :| 0 <= k < |args| && e == |line| - args[k].left;
        NotInside(w, args[k], line);
      case Redir(d, file, _) => if e in Ends(d, |line|) { EndsOutside(d, w, line, e); } else { NotInside(w, file, line); }
      case Pipe(l, r) => if e in Ends(l, |line|) { EndsOutside(l, w, line, e); } else { EndsOutside(r, w, line, e); }
      case List(l, r) => if e in Ends(l, |line|) { EndsOutside(l, w, line, e); } else { EndsOutside(r, w, line, e); }
      case Back(j) => EndsOutside(j, w, line, e);
    }
  }

  lemma NotInside(w: Word, v: Word, line: string)
    requires Stands(w, line) && Stands(v, line)
    ensures !(|line| - w.left - |w.text| <= |line| - v.left < |line| - w.left)
  {
    if |line| - w.left - |w.text| <= |line| - v.left < |line| - w.left {
      InWord(w, line, |line| - v.left);
    }
  }

  lemma InWord(w: Word, line: string, e: nat)
    requires Stands(w, line) && |line| - w.left - |w.text| <= e < |line| - w.left
    ensures IsWordChar(line[e])
  {
    var q := |line| - w.left - |w.text|;
    assert line[q..|line| - w.left][e - q] == w.text[e - q];
  }

  lemma {:induction false} ReadWord(b: seq<char>, q: nat, text: string)
    requires q + |text| < |b| && b[q..q + |text|] == text && b[q + |text|] == '\0'
    requires forall k :: 0 <= k < |text| ==> text[k] != '\0'
    ensures CString(b, q) == text
    decreases |text|
  {
    if text != [] {
      assert b[q] == text[0] && b[q + 1..q + 1 + |text[1..]|] == text[1..];
      ReadWord(b, q + 1, text[1..]);
    }
  }

  /** After parsing and nulterminate every argument and file name, read as a C
      string from where it starts, is its token. */
  lemma ReadsBack(line: string, after: seq<char>, w: Word)
    requires '\0' !in line && ParseCmd(line).Ok? && Mentions(ParseCmd(line).value, w)
    requires Cut(line + ['\0'], after, Ends(ParseCmd(line).value, |line|))
    ensures w.left + |w.text| <= |line| && CString(after, |line| - w.left - |w.text|) == w.text
  {
    var c := ParseCmd(line).value;
    CmdStands(line);
    MentionedStands(c, w, line);
    var q := |line| - w.left - |w.text|;
    forall k | 0 <= k < |w.text|
      ensures after[q + k] == w.text[k] && w.text[k] != '\0'
    {
      assert w.text[k] == line[q + k];
      if q + k in Ends(c, |line|) {
        EndsOutside(c, w, line, q + k);
      }
    }
    assert after[q..q + |w.text|] == w.text;
    ReadWord(after, q, w.text);
  }
}
