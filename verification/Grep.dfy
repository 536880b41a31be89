/** grep's regular expressions: what a pattern means, and the matcher. */
module Grep {

  // ---- What patterns mean ----

  /** One character, or any number of one. */
  datatype Item = One(c: char) | Star(c: char)

  /** A pattern after any '^': its items, and whether '$' ends it. */
  datatype Pattern = Pattern(items: seq<Item>, atEnd: bool)

  /** '*' repeats the character before it, whatever that is; '$' is special at
      the very end only. */
  function Parse(re: string): Pattern {
    if re == [] then Pattern([], false)
    else if |re| > 1 && re[1] == '*' then
      var p := Parse(re[2..]);
      Pattern([Star(re[0])] + p.items, p.atEnd)
    else if re == ['$'] then Pattern([], true)
    else
      var p := Parse(re[1..]);
      Pattern([One(re[0])] + p.items, p.atEnd)
  }

  predicate Fits(c: char, d: char) {
    c == '.' || c == d
  }

  /** u is a piece of text that the item stands for. */
  predicate Piece(item: Item, u: string) {
    match item
    case One(c) => |u| == 1 && Fits(c, u[0])
    case Star(c) => forall i :: 0 <= i < |u| ==> Fits(c, u[i])
  }

  /** u is in the language of the items: it splits into one piece for each. */
  ghost predicate Means(items: seq<Item>, u: string) {
    if items == [] then u == []
    else exists k :: 0 <= k <= |u| && Piece(items[0], u[..k]) && Means(items[1..], u[k..])
  }

  /** Some beginning of the text, all of it if '$' says so, is in the language. */
  ghost predicate Begins(p: Pattern, text: string) {
    exists n :: 0 <= n <= |text| && Means(p.items, text[..n]) && (p.atEnd ==> n == |text|)
  }

  /** The text has a part in the language, at the start if '^' says so, at the
      end if '$' does. */
  ghost predicate Found(re: string, text: string) {
    if re != [] && re[0] == '^' then Begins(Parse(re[1..]), text)
    else exists i :: 0 <= i <= |text| && Begins(Parse(re), text[i..])
  }

  // ---- The matcher as functions ----

  function Here(re: string, text: string): bool
    decreases |re|, 1, |text|
  {
    if re == [] then true
    else if |re| > 1 && re[1] == '*' then HereStar(re[0], re[2..], text)
    else if re == ['$'] then text == []
    else text != [] && Fits(re[0], text[0]) && Here(re[1..], text[1..])
  }

  function HereStar(c: char, re: string, text: string): bool
    decreases |re| + 1, 0, |text|
  {
    Here(re, text) || (text != [] && Fits(c, text[0]) && HereStar(c, re, text[1..]))
  }

  // ---- They decide the language ----

  lemma MeansOne(c: char, rest: seq<Item>, u: string)
    ensures Means([One(c)] + rest, u) <==> u != [] && Fits(c, u[0]) && Means(rest, u[1..])
  {
    var items := [One(c)] + rest;
    assert items[1..] == rest;
    if u != [] && Fits(c, u[0]) && Means(rest, u[1..]) {
      assert Piece(items[0], u[..1]);
    }
  }

  /** A text of a starred pattern: the star takes nothing, or the first character
      and then what it will. */
  lemma StarSplits(c: char, rest: seq<Item>, u: string)
    requires Means([Star(c)] + rest, u)
    ensures Means(rest, u) || (u != [] && Fits(c, u[0]) && Means([Star(c)] + rest, u[1..]))
  {
    var items := [Star(c)] + rest;
    assert items[1..] == rest;
    var k :| 0 <= k <= |u| && Piece(items[0], u[..k]) && Means(items[1..], u[k..]);
    if k == 0 {
      assert u[0..] == u;
    } else {
      var v := u[1..];
      assert v[..k - 1] == u[..k][1..] && v[k - 1..] == u[k..];
      assert u[..k][0] == u[0];
      StarBuilds(c, rest, v, k - 1);
    }
  }

  lemma StarBuilds(c: char, rest: seq<Item>, u: string, k: nat)
    requires k <= |u| && Piece(Star(c), u[..k]) && Means(rest, u[k..])
    ensures Means([Star(c)] + rest, u)
  {
    var items := [Star(c)] + rest;
    assert items[1..] == rest && items[0] == Star(c);
  }

  lemma StarNone(c: char, rest: seq<Item>, u: string)
    requires Means(rest, u)
    ensures Means([Star(c)] + rest, u)
  {
    assert u[0..] == u;
    StarBuilds(c, rest, u, 0);
  }

  lemma StarMore(c: char, rest: seq<Item>, u: string)
    requires u != [] && Fits(c, u[0]) && Means([Star(c)] + rest, u[1..])
    ensures Means([Star(c)] + rest, u)
  {
    var items, v := [Star(c)] + rest, u[1..];
    assert items[1..] == rest;
    var k :| 0 <= k <= |v| && Piece(items[0], v[..k]) && Means(items[1..], v[k..]);
    assert v[k..] == u[k + 1..] && u[..k + 1] == [u[0]] + v[..k];
    StarBuilds(c, rest, u, k + 1);
  }

  lemma MeansStar(c: char, rest: seq<Item>, u: string)
    ensures Means([Star(c)] + rest, u) <==>
              Means(rest, u) || (u != [] && Fits(c, u[0]) && Means([Star(c)] + rest, u[1..]))
  {
    var items := [Star(c)] + rest;
    if Means(items, u) {
      StarSplits(c, rest, u);
    }
    if Means(rest, u) {
      StarNone(c, rest, u);
    }
    if u != [] && Fits(c, u[0]) && Means(items, u[1..]) {
      StarMore(c, rest, u);
    }
  }

  lemma BeginsOne(c: char, p: Pattern, text: string)
    ensures Begins(Pattern([One(c)] + p.items, p.atEnd), text) <==>
              text != [] && Fits(c, text[0]) && Begins(p, text[1..])
  {
    var q := Pattern([One(c)] + p.items, p.atEnd);
    if Begins(q, text) {
      var n :| 0 <= n <= |text| && Means(q.items, text[..n]) && (p.atEnd ==> n == |text|);
      MeansOne(c, p.items, text[..n]);
      assert text[..n][1..] == text[1..][..n - 1];
    }
    if text != [] && Fits(c, text[0]) && Begins(p, text[1..]) {
      var n :| 0 <= n <= |text[1..]| && Means(p.items, text[1..][..n]) && (p.atEnd ==> n == |text[1..]|);
      MeansOne(c, p.items, text[..n + 1]);
      assert text[..n + 1][1..] == text[1..][..n];
    }
  }

  lemma BeginsStar(c: char, p: Pattern, text: string)
    ensures var q := Pattern([Star(c)] + p.items, p.atEnd);
            Begins(q, text) <==> Begins(p, text) || (text != [] && Fits(c, text[0]) && Begins(q, text[1..]))
  {
    var q := Pattern([Star(c)] + p.items, p.atEnd);
    if Begins(q, text) {
      var n :| 0 <= n <= |text| && Means(q.items, text[..n]) && (p.atEnd ==> n == |text|);
      MeansStar(c, p.items, text[..n]);
      if !Means(p.items, text[..n]) {
        assert text[..n][1..] == text[1..][..n - 1];
      }
    }
    if Begins(p, text) {
      var n :| 0 <= n <= |text| && Means(p.items, text[..n]) && (p.atEnd ==> n == |text|);
      MeansStar(c, p.items, text[..n]);
    }
    if text != [] && Fits(c, text[0]) && Begins(q, text[1..]) {
      var n :| 0 <= n <= |text[1..]| && Means(q.items, text[1..][..n]) && (p.atEnd ==> n == |text[1..]|);
      MeansStar(c, p.items, text[..n + 1]);
      assert text[..n + 1][1..] == text[1..][..n];
    }
  }

  lemma {:induction false} HereDecides(re: string, text: string)
    ensures Here(re, text) <==> Begins(Parse(re), text)
    decreases |re|, 1, |text|
  {
    if re == [] {
      assert Means([], text[..0]);
    } else if |re| > 1 && re[1] == '*' {
      HereStarDecides(re[0], re[2..], text);
    } else if re == ['$'] {
      if text == [] {
        assert Means([], text[..0]);
      }
    } else {
      BeginsOne(re[0], Parse(re[1..]), text);
      if text != [] {
        HereDecides(re[1..], text[1..]);
      }
    }
  }

  lemma {:induction false} HereStarDecides(c: char, re: string, text: string)
    ensures HereStar(c, re, text) <==> Begins(Pattern([Star(c)] + Parse(re).items, Parse(re).atEnd), text)
    decreases |re| + 1, 0, |text|
  {
    HereDecides(re, text);
    BeginsStar(c, Parse(re), text);
    if text != [] {
      HereStarDecides(c, re, text[1..]);
    }
  }

  // ---- The matcher as it runs ----

  method MatchHere(re: string, text: string) returns (r: bool)
    ensures r == Here(re, text)
    decreases |re|, 1
  {
    if re == [] {
      return true;
    }
    if |re| > 1 && re[1] == '*' {
      r := MatchStar(re[0], re[2..], text);
      return;
    }
    if re[0] == '$' && |re| == 1 {
      return text == [];
    }
    if text != [] && (re[0] == '.' || re[0] == text[0]) {
      r := MatchHere(re[1..], text[1..]);
      return;
    }
    r := false;
  }

  method MatchStar(c: char, re: string, text: string) returns (r: bool)
    ensures r == HereStar(c, re, text)
    decreases |re| + 1, 0
  {
    var t := 0;
    r := MatchHere(re, text);
    assert text[0..] == text;
    while !r && t < |text| && (text[t] == c || c == '.')
      invariant 0 <= t <= |text|
      invariant r == Here(re, text[t..])
      invariant HereStar(c, re, text) == HereStar(c, re, text[t..])
    {
      assert text[t..][1..] == text[t + 1..];
      t := t + 1;
      r := MatchHere(re, text[t..]);
    }
  }

  /** match: the text is accepted exactly when the pattern is found in it. */
  method Match(re: string, text: string) returns (r: bool)
    ensures r <==> Found(re, text)
  {
    if re != [] && re[0] == '^' {
      HereDecides(re[1..], text);
      r := MatchHere(re[1..], text);
      return;
    }
    var t := 0;
    r := MatchHere(re, text);
    assert text[0..] == text;
    while !r && t < |text|
      invariant 0 <= t <= |text|
      invariant r == Here(re, text[t..])
      invariant forall i :: 0 <= i < t ==> !Here(re, text[i..])
    {
      t := t + 1;
      r := MatchHere(re, text[t..]);
    }
    forall i | 0 <= i <= |text|
      ensures Here(re, text[i..]) <==> Begins(Parse(re), text[i..])
    {
      HereDecides(re, text[i..]);
    }
  }
}

/** What familiar patterns find, in plain terms. */
module GrepLaws {
  import opened Grep

  /** One character finds itself, and '.' any. */
  lemma FindsChar(c: char, d: char)
    requires c != '^' && c != '$'
    ensures Found([c], [d]) <==> c == '.' || c == d
  {
    assert [c][1..] == [];
    assert Parse([c]) == Pattern([One(c)], false);
    CharBegins(c, [d]);
    CharBegins(c, []);
    assert [d][0..] == [d] && [d][1..] == [];
  }

  lemma CharBegins(c: char, text: string)
    ensures Begins(Pattern([One(c)], false), text) <==> text != [] && (c == '.' || c == text[0])
  {
    var p := Pattern([], false);
    assert [One(c)] + p.items == [One(c)];
    BeginsOne(c, p, text);
    if text != [] {
      assert Means([], text[1..][..0]);
    }
  }

  predicate Ordinary(w: string) {
    forall k :: 0 <= k < |w| ==> w[k] != '.' && w[k] != '*' && w[k] != '^' && w[k] != '$'
  }

  function Ones(w: string): seq<Item> {
    if w == [] then [] else [One(w[0])] + Ones(w[1..])
  }

  lemma {:induction false} ParseWord(w: string)
    requires Ordinary(w)
    ensures Parse(w) == Pattern(Ones(w), false) && Parse(w + ['$']) == Pattern(Ones(w), true)
    decreases |w|
  {
    if w == [] {
      assert w + ['$'] == ['$'];
    } else {
      ParseWord(w[1..]);
      assert (w + ['$'])[1..] == w[1..] + ['$'] && (w + ['$'])[0] == w[0];
      assert |w| == 1 ==> (w + ['$'])[1] == '$';
      assert |w| > 1 ==> (w + ['$'])[1] == w[1];
    }
  }

  lemma {:induction false} WordMeans(w: string, u: string)
    requires Ordinary(w)
    ensures Means(Ones(w), u) <==> u == w
    decreases |w|
  {
    if w != [] {
      MeansOne(w[0], Ones(w[1..]), u);
      if u != [] {
        WordMeans(w[1..], u[1..]);
        assert u == [u[0]] + u[1..] && w == [w[0]] + w[1..];
      }
    }
  }

  lemma WordBegins(w: string, atEnd: bool, text: string)
    requires Ordinary(w)
    ensures Begins(Pattern(Ones(w), atEnd), text) <==> w <= text && (atEnd ==> w == text)
  {
    forall n | 0 <= n <= |text|
      ensures Means(Ones(w), text[..n]) <==> text[..n] == w
    {
      WordMeans(w, text[..n]);
    }
    if w <= text {
      assert text[..|w|] == w;
    }
  }

  /** A word finds the texts it occurs in ... */
  lemma FindsWord(w: string, text: string)
    requires Ordinary(w)
    ensures Found(w, text) <==> exists i :: 0 <= i <= |text| && w <= text[i..]
  {
    ParseWord(w);
    forall i | 0 <= i <= |text|
      ensures Begins(Parse(w), text[i..]) <==> w <= text[i..]
    {
      WordBegins(w, false, text[i..]);
    }
  }

  /** ... after '^' those it starts ... */
  lemma FindsPrefix(w: string, text: string)
    requires Ordinary(w)
    ensures Found(['^'] + w, text) <==> w <= text
  {
    assert (['^'] + w)[1..] == w;
    ParseWord(w);
    WordBegins(w, false, text);
  }

  /** ... and before '$' those it ends. */
  lemma FindsSuffix(w: string, text: string)
    requires Ordinary(w)
    ensures Found(w + ['$'], text) <==> |w| <= |text| && text[|text| - |w|..] == w
  {
    ParseWord(w);
    assert (w + ['$'])[0] == if w == [] then '$' else w[0];
    forall i | 0 <= i <= |text|
      ensures Begins(Parse(w + ['$']), text[i..]) <==> text[i..] == w
    {
      WordBegins(w, true, text[i..]);
    }
  }

  /** A starred character between anchors finds the texts made of it, and ".*" all. */
  lemma {:induction false} FindsRun(c: char, text: string)
    ensures Found(['^', c, '*', '$'], text) <==> c == '.' || forall i :: 0 <= i < |text| ==> text[i] == c
  {
    var re := ['^', c, '*', '$'];
    assert re[1..] == [c, '*', '$'] && [c, '*', '$'][2..] == ['$'];
    assert Parse(['$']) == Pattern([], true);
    assert [Star(c)] + [] == [Star(c)];
    assert Parse([c, '*', '$']) == Pattern([Star(c)], true);
    RunBegins(c, text);
  }

  lemma {:induction false} RunBegins(c: char, text: string)
    ensures Begins(Pattern([Star(c)], true), text) <==> c == '.' || forall i :: 0 <= i < |text| ==> text[i] == c
    decreases |text|
  {
    var p := Pattern([], true);
    assert [Star(c)] + p.items == [Star(c)];
    BeginsStar(c, p, text);
    assert Begins(p, text) <==> text == [] by {
      if text == [] {
        assert Means([], text[..0]);
      }
    }
    if text != [] {
      RunBegins(c, text[1..]);
      assert forall i :: 0 <= i < |text| - 1 ==> text[1..][i] == text[i + 1];
      assert (forall i :: 0 <= i < |text| ==> text[i] == c) <==>
             text[0] == c && forall i :: 0 <= i < |text| - 1 ==> text[1..][i] == c;
    }
  }
}
