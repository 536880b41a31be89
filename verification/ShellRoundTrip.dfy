/** A way to type every command: printing and parsing gives the command back. */
module ShellPrinter {
  import opened ShellSyntax
  import opened ShellGrammar

  function Base(t: Tree): Tree {
    if t.TRedir? then Base(t.cmd) else t
  }

  function Chain(t: Tree): seq<Link> {
    if t.TRedir? then Chain(t.cmd) + [Link(t.file, t.out)] else []
  }

  function FormRedirs(ch: seq<Link>): (r: seq<Redirect>)
    ensures |r| == |ch|
    ensures forall k :: 0 <= k < |ch| ==> r[k] == Redirect(" ", if ch[k].out then To else From, " ", ch[k].file)
  {
    seq(|ch|, k requires 0 <= k < |ch| => Redirect(" ", if ch[k].out then To else From, " ", ch[k].file))
  }

  /** The redirections come after the last argument. */
  function FormArgs(args: seq<string>, rs: seq<Redirect>): seq<Argument> {
    if args == [] then []
    else if |args| == 1 then [Argument(" ", args[0], rs)]
    else [Argument(" ", args[0], [])] + FormArgs(args[1..], rs)
  }

  /** How deep the precedences still to go through are. */
  function Rank(t: Tree, level: nat): nat {
    match t
    case TExec(_) => level
    case TRedir(_, _, _) => level
    case TPipe(_, _) => if level == 0 then 4 else level
    case TList(_, _) => if level == 3 then 4 else if level == 0 then 5 else 5 + level
    case TBack(_) => if level == 3 then 4 else if level == 0 then 5 else 5 + level
  }

  lemma BaseSmaller(t: Tree)
    ensures !Base(t).TRedir? && (Base(t) == t || (t.TRedir? && Base(t) < t))
  {
  }

  /** A command that a redirection or '|' can follow: parentheses as needed. */
  function FormAtom(t: Tree): Atom
    decreases t, Rank(t, 0)
  {
    BaseSmaller(t);
    var b, rs := Base(t), FormRedirs(Chain(t));
    if !b.TExec? then Block([], FormLine(b), [], rs)
    else if b.args == [] then Simple(rs, [])
    else Simple([], FormArgs(b.args, rs))
  }

  function FormPipe(t: Tree): Pipeline
    decreases t, Rank(t, 1)
  {
    if t.TPipe? then Piped(FormAtom(t.left), [], FormPipe(t.right)) else Single(FormAtom(t))
  }

  /** The pipeline, and the number of '&'s after it. */
  function FormBack(t: Tree): (Pipeline, nat)
    decreases t, if t.TBack? then 0 else Rank(t, 2)
  {
    if t.TBack? then (FormBack(t.job).0, FormBack(t.job).1 + 1) else (FormPipe(t), 0)
  }

  function Amps(k: nat): (r: seq<string>)
    ensures |r| == k && forall i :: 0 <= i < k ==> r[i] == []
  {
    seq(k, _ => [])
  }

  function FormLine(t: Tree): Line
    decreases t, Rank(t, 3)
  {
    if t.TList? then Before(FormBack(t.first).0, Amps(FormBack(t.first).1), [], FormLine(t.rest))
    else Last(FormBack(t).0, Amps(FormBack(t).1))
  }

  function Print(t: Tree): string {
    LineText(FormLine(t), [])
  }
}

module ShellRoundTrip {
  import opened ShellSyntax
  import opened ShellGrammar
  import opened ShellPrinter
  import opened ShellComplete

  predicate LegalLinks(ch: seq<Link>) {
    forall k :: 0 <= k < |ch| ==> LegalWord(ch[k].file)
  }

  lemma {:induction false} ChainIs(t: Tree)
    requires Legal(t)
    ensures TWrap(Base(t), Chain(t)) == t && Legal(Base(t)) && LegalLinks(Chain(t))
  {
    if t.TRedir? {
      ChainIs(t.cmd);
      assert Chain(t)[..|Chain(t)| - 1] == Chain(t.cmd);
    }
  }

  lemma RedirsMean(ch: seq<Link>)
    requires LegalLinks(ch)
    ensures RedirsOk(FormRedirs(ch)) && RedirsLinks(FormRedirs(ch)) == ch
  {
  }

  lemma {:induction false} ArgsMean(args: seq<string>, rs: seq<Redirect>)
    requires args != [] && RedirsOk(rs) && forall k :: 0 <= k < |args| ==> LegalWord(args[k])
    ensures var ws := FormArgs(args, rs);
            |ws| == |args| && ArgsOk(ws, true) && ArgsWords(ws) == args && ArgsLinks(ws) == RedirsLinks(rs)
    decreases |args|
  {
    var ws := FormArgs(args, rs);
    if |args| == 1 {
      assert ArgsLinks(ws) == RedirsLinks(rs) + ArgsLinks([]);
      assert ArgsWords(ws) == args;
    } else {
      ArgsMean(args[1..], rs);
      assert ws[1..] == FormArgs(args[1..], rs);
      assert RedirsLinks([]) == [];
      assert ArgsWords(ws) == [args[0]] + ArgsWords(ws[1..]);
    }
  }

  lemma SimpleMeans(args: seq<string>, ch: seq<Link>)
    requires Legal(TExec(args)) && LegalLinks(ch)
    ensures var rs := FormRedirs(ch);
            var a := if args == [] then Simple(rs, []) else Simple([], FormArgs(args, rs));
            AtomOk(a) && AtomTree(a) == TWrap(TExec(args), ch)
  {
    var rs := FormRedirs(ch);
    RedirsMean(ch);
    if args == [] {
      assert ArgsWords([]) == args && RedirsLinks(rs) + ArgsLinks([]) == ch;
    } else {
      ArgsMean(args, rs);
      assert RedirsLinks([]) + ArgsLinks(FormArgs(args, rs)) == ch;
    }
  }

  lemma {:induction false} AtomMeans(t: Tree)
    requires Legal(t)
    ensures AtomOk(FormAtom(t)) && AtomTree(FormAtom(t)) == t
    decreases t, Rank(t, 0), 0
  {
    ChainIs(t);
    BaseSmaller(t);
    RedirsMean(Chain(t));
    if Base(t).TExec? {
      SimpleMeans(Base(t).args, Chain(t));
    } else {
      LineMeans(Base(t));
    }
  }

  lemma {:induction false} PipeMeans(t: Tree)
    requires Legal(t)
    ensures PipeOk(FormPipe(t)) && PipeTree(FormPipe(t)) == t
    decreases t, Rank(t, 1), 0
  {
    if t.TPipe? {
      AtomMeans(t.left);
      PipeMeans(t.right);
    } else {
      AtomMeans(t);
    }
  }

  lemma {:induction false} BackOutside(t: Tree, k: nat)
    ensures TBacks(t, k + 1) == TBack(TBacks(t, k))
    decreases k
  {
    if k > 0 {
      BackOutside(TBack(t), k - 1);
    }
  }

  lemma {:induction false} BackMeans(t: Tree)
    requires Legal(t)
    ensures PipeOk(FormBack(t).0) && TBacks(PipeTree(FormBack(t).0), FormBack(t).1) == t
    decreases t, if t.TBack? then 0 else Rank(t, 2), 0
  {
    if t.TBack? {
      BackMeans(t.job);
      BackOutside(PipeTree(FormBack(t.job).0), FormBack(t.job).1);
    } else {
      PipeMeans(t);
    }
  }

  lemma {:induction false} LineMeans(t: Tree)
    requires Legal(t)
    ensures LineOk(FormLine(t)) && LineTree(FormLine(t)) == t
    decreases t, Rank(t, 3), 0
  {
    if t.TList? {
      BackMeans(t.first);
      LineMeans(t.rest);
    } else {
      BackMeans(t);
    }
  }

  /** Every legal command survives being printed and parsed. */
  lemma RoundTrip(t: Tree)
    requires Legal(t)
    ensures var r := ParseCmd(Print(t)); r.Ok? && Plain(r.value) == t && r.rest == []
  {
    LineMeans(t);
    Complete(FormLine(t), []);
  }
}
