/** The passes `Environment.process` (lxl.py:387-399) runs after `taggify`:
    `merge`, `equify`, `make_paragraphs` and `group_list_items`, each first
    rewriting an environment's own children and then recursing into them.
    As in `Tree`, each pass is a function that states it and a method with
    the source's loops proved equal to that function. */
module Passes {
  import opened Util
  import opened Lines
  import opened Tree

  /** A measure that every pass below keeps from growing: list items
      (`uli`, `oli` and the `none` that `group_list_items` starts from)
      weigh one more than other environments, so that wrapping an item in
      a new `ul`/`ol` costs nothing; a line outweighs the paragraph
      environment `make_paragraphs` puts in its place. */
  function Bonus(name: string): nat
  {
    if name == "uli" || name == "oli" || name == "none" then 1 else 0
  }

  function Size(n: Node): (s: nat)
    ensures s >= 1
    decreases n
  {
    match n
    case LineNode(_) => 3
    case Para(_) => 1
    case Env(name, _, _, cs) => 1 + Bonus(name) + SizeAll(cs)
  }

  function SizeAll(ns: seq<Node>): nat
    decreases ns
  {
    if ns == [] then 0 else Size(ns[0]) + SizeAll(ns[1..])
  }

  lemma {:induction false} SizeAllAppend(a: seq<Node>, b: seq<Node>)
    ensures SizeAll(a + b) == SizeAll(a) + SizeAll(b)
  {
    if a == [] {
      assert a + b == b;
    } else {
      assert (a + b)[0] == a[0] && (a + b)[1..] == a[1..] + b;
      SizeAllAppend(a[1..], b);
    }
  }

  lemma {:induction false} SizeAllBound(ns: seq<Node>)
    ensures forall y :: y in ns ==> Size(y) <= SizeAll(ns)
  {
    if ns != [] {
      SizeAllBound(ns[1..]);
      assert forall y :: y in ns ==> y == ns[0] || y in ns[1..];
    }
  }

  // ---------------------------------------------------------------------
  // merge (lxl.py:453-484)

  /** `merge` starts with `self.contents.pop(0)` in every environment it
      reaches: each of them other than a `tikzpicture`, which it leaves
      alone, must have a child. */
  predicate Mergeable(n: Node)
  {
    match n
    case Env(name, _, _, cs) =>
      name == "tikzpicture" || (cs != [] && forall k :: 0 <= k < |cs| ==> Mergeable(cs[k]))
    case LineNode(_) => true
    case Para(_) => true
  }

  lemma AppendOk(a: Line, b: Line)
    requires LineOk(a) && LineOk(b)
    ensures LineOk(Append(a, b))
  {
    var r := Append(a, b);
    forall i | 0 <= i < |r.chars|
      ensures r.chars[i].Tok?
    {
      if i < |a.chars| {
        assert r.chars[i] == r.chars[..|a.chars|][i];
      } else if i > |a.chars| {
        assert r.chars[i] == r.chars[|a.chars| + 1..][i - |a.chars| - 1];
      }
    }
  }

  /** One turn of the `while self.contents` loop: the popped child `x`
      joins `merged`. A line after a line is added to it, a blank one as
      `Line.empty_line()`; anything else is appended. A paragraph matches
      neither type test and is dropped (none exist before
      `make_paragraphs`). */
  function MergeStep(merged: seq<Node>, x: Node): (r: seq<Node>)
    requires merged != [] && AllOk(merged) && TreeOk(x)
    ensures r != [] && AllOk(r)
  {
    var n := |merged| - 1;
    match x
    case Env(_, _, _, _) => merged + [x]
    case LineNode(l) =>
      if merged[n].LineNode? then
        var next := if IsBlank(l) then EmptyLine() else l;
        AppendOk(merged[n].line, next);
        merged[..n] + [LineNode(Append(merged[n].line, next))]
      else merged + [x]
    case Para(_) => merged
  }

  function MergeFold(queue: seq<Node>, merged: seq<Node>): (r: seq<Node>)
    requires merged != [] && AllOk(merged) && AllOk(queue)
    ensures r != [] && AllOk(r)
    decreases |queue|
  {
    if queue == [] then merged
    else
      assert forall k :: 0 <= k < |queue| - 1 ==> queue[1..][k] == queue[k + 1];
      MergeFold(queue[1..], MergeStep(merged, queue[0]))
  }

  /** The new `self.contents` of a `merge`, before the recursion. */
  function MergeLevel(cs: seq<Node>): (r: seq<Node>)
    requires cs != [] && AllOk(cs)
    ensures r != [] && AllOk(r)
  {
    assert forall k :: 0 <= k < |cs| - 1 ==> cs[1..][k] == cs[k + 1];
    MergeFold(cs[1..], [cs[0]])
  }

  /** No two neighbours are both lines. */
  predicate Joined(ns: seq<Node>)
  {
    forall k :: 0 <= k < |ns| - 1 && ns[k].LineNode? ==> !ns[k + 1].LineNode?
  }

  predicate NoPara(ns: seq<Node>)
  {
    forall k :: 0 <= k < |ns| ==> !ns[k].Para?
  }

  /** The environments among `ns`, in order. */
  function EnvsOf(ns: seq<Node>): seq<Node>
  {
    if ns == [] then [] else EnvOf(ns[0]) + EnvsOf(ns[1..])
  }

  function EnvOf(x: Node): seq<Node>
  {
    if x.Env? then [x] else []
  }

  lemma {:induction false} EnvsOfMembers(ns: seq<Node>)
    ensures forall y :: y in EnvsOf(ns) <==> y in ns && y.Env?
  {
    if ns != [] {
      EnvsOfMembers(ns[1..]);
      assert forall y :: y in ns <==> y == ns[0] || y in ns[1..];
    }
  }

  lemma {:induction false} EnvsOfAppend(a: seq<Node>, b: seq<Node>)
    ensures EnvsOf(a + b) == EnvsOf(a) + EnvsOf(b)
  {
    if a == [] {
      assert a + b == b;
    } else {
      assert (a + b)[0] == a[0] && (a + b)[1..] == a[1..] + b;
      EnvsOfAppend(a[1..], b);
      Assoc(EnvOf(a[0]), EnvsOf(a[1..]), EnvsOf(b));
    }
  }

  lemma EnvsOfOne(x: Node)
    ensures EnvsOf([x]) == EnvOf(x)
  {
    assert [x][1..] == [];
  }

  lemma MergeStepJoined(merged: seq<Node>, x: Node)
    requires merged != [] && AllOk(merged) && TreeOk(x) && Joined(merged)
    ensures Joined(MergeStep(merged, x))
  {
    var n := |merged| - 1;
    var r := MergeStep(merged, x);
    if x.LineNode? && merged[n].LineNode? {
      assert forall k :: 0 <= k < n ==> r[k] == merged[k];
    } else if !x.Para? {
      assert r == merged + [x];
      assert forall k :: 0 <= k < n ==> r[k] == merged[k];
    }
  }

  lemma MergeStepEnvs(merged: seq<Node>, x: Node)
    requires merged != [] && AllOk(merged) && TreeOk(x)
    ensures EnvsOf(MergeStep(merged, x)) == EnvsOf(merged) + EnvOf(x)
  {
    var n := |merged| - 1;
    if x.LineNode? && merged[n].LineNode? {
      JoinedLineEnvs(merged, MergeStep(merged, x));
    } else if x.Para? {
      assert EnvOf(x) == [];
    } else {
      assert MergeStep(merged, x) == merged + [x];
      EnvsOfAppend(merged, [x]);
      EnvsOfOne(x);
    }
  }

  /** Replacing a final line by another line keeps the environments. */
  lemma JoinedLineEnvs(merged: seq<Node>, r: seq<Node>)
    requires merged != [] && |r| == |merged|
    requires r[..|r| - 1] == merged[..|merged| - 1]
    requires r[|r| - 1].LineNode? && merged[|merged| - 1].LineNode?
    ensures EnvsOf(r) == EnvsOf(merged) + []
  {
    var n := |merged| - 1;
    assert merged == merged[..n] + [merged[n]];
    assert r == r[..n] + [r[n]];
    EnvsOfAppend(merged[..n], [merged[n]]);
    EnvsOfAppend(r[..n], [r[n]]);
    EnvsOfOne(merged[n]);
    EnvsOfOne(r[n]);
  }

  /** The loop keeps the children in order and never leaves two lines side
      by side. */
  lemma {:induction false} MergeFoldProperties(queue: seq<Node>, merged: seq<Node>)
    requires merged != [] && AllOk(merged) && AllOk(queue) && Joined(merged)
    ensures Joined(MergeFold(queue, merged))
    ensures EnvsOf(MergeFold(queue, merged)) == EnvsOf(merged) + EnvsOf(queue)
    decreases |queue|
  {
    if queue == [] {
      assert EnvsOf(merged) + EnvsOf(queue) == EnvsOf(merged);
    } else {
      var next := MergeStep(merged, queue[0]);
      MergeStepJoined(merged, queue[0]);
      MergeStepEnvs(merged, queue[0]);
      MergeFoldAt(queue, merged);
      MergeFoldProperties(queue[1..], next);
      Assoc(EnvsOf(merged), EnvOf(queue[0]), EnvsOf(queue[1..]));
    }
  }

  lemma MergeFoldAt(queue: seq<Node>, merged: seq<Node>)
    requires merged != [] && AllOk(merged) && AllOk(queue) && queue != []
    ensures AllOk(queue[1..])
    ensures MergeFold(queue, merged) == MergeFold(queue[1..], MergeStep(merged, queue[0]))
    ensures EnvsOf(queue) == EnvOf(queue[0]) + EnvsOf(queue[1..])
  {
    assert forall k :: 0 <= k < |queue| - 1 ==> queue[1..][k] == queue[k + 1];
  }

  /** After `merge` no two consecutive children are lines, and the
      environments among the children are the same ones in the same order. */
  lemma MergeLevelProperties(cs: seq<Node>)
    requires cs != [] && AllOk(cs)
    ensures Joined(MergeLevel(cs))
    ensures EnvsOf(MergeLevel(cs)) == EnvsOf(cs)
  {
    assert forall k :: 0 <= k < |cs| - 1 ==> cs[1..][k] == cs[k + 1];
    MergeFoldProperties(cs[1..], [cs[0]]);
    EnvsOfOne(cs[0]);
  }

  /** A blank line between two lines is not kept as whitespace: the three
      become one line with a `parbreak` token where the blank line was. */
  lemma MergeBlankLine(a: Line, b: Line, c: Line)
    requires LineOk(a) && LineOk(b) && LineOk(c) && IsBlank(b) && !IsBlank(c)
    ensures MergeLevel([LineNode(a), LineNode(b), LineNode(c)])
            == [LineNode(Append(Append(a, EmptyLine()), c))]
  {
    var cs := [LineNode(a), LineNode(b), LineNode(c)];
    AppendOk(a, EmptyLine());
    var m1 := MergeStep([cs[0]], cs[1]);
    assert m1 == [LineNode(Append(a, EmptyLine()))];
    var m2 := MergeStep(m1, cs[2]);
    assert m2 == [LineNode(Append(Append(a, EmptyLine()), c))];
    assert cs[1..][1..] == [cs[2]];
    assert MergeFold([cs[2]], m1) == MergeFold([], m2);
  }

  /** Children that are already merged come out unchanged. */
  lemma {:induction false} MergeFoldJoined(queue: seq<Node>, merged: seq<Node>)
    requires merged != [] && AllOk(merged) && AllOk(queue)
    requires Joined(merged + queue) && NoPara(queue)
    ensures MergeFold(queue, merged) == merged + queue
    decreases |queue|
  {
    if queue == [] {
      assert merged + queue == merged;
    } else {
      var n := |merged| - 1;
      assert (merged + queue)[n] == merged[n] && (merged + queue)[n + 1] == queue[0];
      assert MergeStep(merged, queue[0]) == merged + [queue[0]];
      assert (merged + [queue[0]]) + queue[1..] == merged + queue;
      assert forall k :: 0 <= k < |queue| - 1 ==> queue[1..][k] == queue[k + 1];
      MergeFoldJoined(queue[1..], merged + [queue[0]]);
    }
  }

  /** Merging the merged children again changes nothing. */
  lemma MergeLevelIdempotent(cs: seq<Node>)
    requires cs != [] && AllOk(cs) && NoPara(cs)
    ensures MergeLevel(MergeLevel(cs)) == MergeLevel(cs)
  {
    var m := MergeLevel(cs);
    MergeLevelProperties(cs);
    MergeFoldNoPara(cs[1..], [cs[0]]);
    HeadTail(m);
    MergeFoldJoined(m[1..], [m[0]]);
  }

  lemma {:induction false} MergeFoldNoPara(queue: seq<Node>, merged: seq<Node>)
    requires merged != [] && AllOk(merged) && AllOk(queue) && NoPara(merged) && NoPara(queue)
    ensures NoPara(MergeFold(queue, merged))
    decreases |queue|
  {
    if queue != [] {
      var n := |merged| - 1;
      var next := MergeStep(merged, queue[0]);
      assert forall k :: 0 <= k < n ==> next[k] == merged[k];
      assert forall k :: 0 <= k < |queue| - 1 ==> queue[1..][k] == queue[k + 1];
      MergeFoldNoPara(queue[1..], next);
    }
  }

  /** `Joined` in every environment of `n` that `merge` reaches: all but a
      `tikzpicture` and what it holds. */
  predicate JoinedDeep(n: Node)
  {
    match n
    case Env(name, _, _, cs) =>
      name == "tikzpicture" || (Joined(cs) && forall k :: 0 <= k < |cs| ==> JoinedDeep(cs[k]))
    case LineNode(_) => true
    case Para(_) => true
  }

  /** `Environment.merge`: the children merged, then each of them merged;
      a `tikzpicture` is left as it is. */
  function Merge(n: Node): (r: Node)
    requires Mergeable(n) && TreeOk(n)
    ensures TreeOk(r) && Name(r) == Name(n)
    ensures r.Env? <==> n.Env?
    ensures r.Env? && n.name != "tikzpicture" ==> Joined(r.contents)
    ensures JoinedDeep(r)
    decreases n, 1
  {
    match n
    case Env(name, additional, indent, cs) =>
      if name == "tikzpicture" then n
      else
        var level := MergeLevel(cs);
        MergeLevelProperties(cs);
        EnvsOfMembers(cs);
        EnvsOfMembers(level);
        Env(name, additional, indent, MergeAll(level, n))
    case LineNode(_) => n
    case Para(_) => n
  }

  /** `for x in self.contents: x.merge()` over the children `ys` of
      `parent`'s merged level. */
  function MergeAll(ys: seq<Node>, parent: Node): (r: seq<Node>)
    requires parent.Env? && parent.name != "tikzpicture" && Mergeable(parent) && AllOk(ys)
    requires forall y :: y in ys && y.Env? ==> y in parent.contents
    ensures |r| == |ys| && AllOk(r)
    ensures forall k :: 0 <= k < |ys| ==> (r[k].LineNode? <==> ys[k].LineNode?)
    ensures Joined(ys) ==> Joined(r)
    ensures forall k :: 0 <= k < |r| ==> JoinedDeep(r[k])
    decreases parent, 0, |ys|
  {
    if ys == [] then []
    else
      var y := ys[0];
      HeadTail(ys);
      var x := if y.Env? then (assert y in parent.contents; MergeChild(y, parent)) else y;
      var rest := MergeAll(ys[1..], parent);
      MergedCons(x, ys, rest);
      [x] + rest
  }

  /** The postcondition of `MergeAll` carries over from the tail to the
      whole list. */
  lemma MergedCons(x: Node, ys: seq<Node>, rest: seq<Node>)
    requires ys != [] && |rest| == |ys| - 1
    requires TreeOk(x) && JoinedDeep(x) && (x.LineNode? <==> ys[0].LineNode?)
    requires AllOk(rest) && forall k :: 0 <= k < |rest| ==> JoinedDeep(rest[k])
    requires forall k :: 0 <= k < |rest| ==> (rest[k].LineNode? <==> ys[k + 1].LineNode?)
    requires Joined(ys[1..]) ==> Joined(rest)
    ensures AllOk([x] + rest)
    ensures forall k :: 0 <= k < |ys| ==> (([x] + rest)[k].LineNode? <==> ys[k].LineNode?)
    ensures Joined(ys) ==> Joined([x] + rest)
    ensures forall k :: 0 <= k < |ys| ==> JoinedDeep(([x] + rest)[k])
  {
    var r := [x] + rest;
    assert forall k :: 0 < k < |r| ==> r[k] == rest[k - 1];
    if Joined(ys) {
      HeadTail(ys);
      assert Joined(ys[1..]);
    }
  }

  function MergeChild(y: Node, parent: Node): (r: Node)
    requires parent.Env? && parent.name != "tikzpicture" && Mergeable(parent)
    requires y in parent.contents && TreeOk(y)
    ensures TreeOk(r) && (r.LineNode? <==> y.LineNode?) && JoinedDeep(r)
    decreases parent, 0, 0
  {
    assert Mergeable(y) by {
      var k :| 0 <= k < |parent.contents| && parent.contents[k] == y;
    }
    Merge(y)
  }

  /** `Environment.merge`: the `pop(0)` queue, then the recursion. */
  method MergeNode(n: Node) returns (r: Node)
    requires Mergeable(n) && TreeOk(n)
    ensures r == Merge(n)
    decreases n, 1
  {
    if !n.Env? || n.name == "tikzpicture" {
      return n;
    }
    var merged := MergeQueue(n.contents);
    MergeLevelProperties(n.contents);
    EnvsOfMembers(n.contents);
    EnvsOfMembers(merged);
    var out := MergeChildren(merged, n);
    r := Env(n.name, n.additional, n.indent, out);
  }

  /** The recursion of `merge` over the merged contents, in order. */
  method MergeChildren(merged: seq<Node>, n: Node) returns (out: seq<Node>)
    requires n.Env? && n.name != "tikzpicture" && Mergeable(n) && AllOk(merged)
    requires forall y :: y in merged && y.Env? ==> y in n.contents
    ensures out == MergeAll(merged, n)
    decreases n, 0
  {
    out := [];
    assert merged[0..] == merged;
    for k := 0 to |merged|
      invariant out + MergeAll(merged[k..], n) == MergeAll(merged, n)
    {
      var y := merged[k];
      MergeAllAt(merged, n, k);
      var x := y;
      if y.Env? {
        x := MergeNode(y);
      }
      Assoc(out, [x], MergeAll(merged[k + 1..], n));
      out := out + [x];
    }
    assert merged[|merged|..] == [];
    assert out + [] == out;
  }

  /** The `while self.contents` loop of `merge`. */
  method MergeQueue(cs: seq<Node>) returns (merged: seq<Node>)
    requires cs != [] && AllOk(cs)
    ensures merged == MergeLevel(cs)
  {
    var contents := cs;
    merged := [contents[0]];
    contents := contents[1..];
    assert forall k :: 0 <= k < |contents| ==> contents[k] == cs[k + 1];
    while contents != []
      invariant merged != [] && AllOk(merged) && AllOk(contents)
      invariant MergeFold(contents, merged) == MergeLevel(cs)
      decreases |contents|
    {
      var line := contents[0];
      MergeFoldAt(contents, merged);
      ghost var next := MergeStep(merged, line);
      contents := contents[1..];
      if line.Env? {
        merged := merged + [line];
      } else if line.LineNode? {
        var last := |merged| - 1;
        if merged[last].LineNode? {
          if IsBlank(line.line) {
            merged := merged[..last] + [LineNode(Append(merged[last].line, EmptyLine()))];
          } else {
            merged := merged[..last] + [LineNode(Append(merged[last].line, line.line))];
          }
        } else {
          merged := merged + [line];
        }
      }
      assert merged == next;
    }
  }

  lemma MergeAllAt(ys: seq<Node>, parent: Node, k: nat)
    requires parent.Env? && parent.name != "tikzpicture" && Mergeable(parent) && AllOk(ys)
    requires forall y :: y in ys && y.Env? ==> y in parent.contents
    requires k < |ys|
    ensures ys[k].Env? ==> ys[k] in parent.contents && Mergeable(ys[k])
    ensures MergeAll(ys[k..], parent)
            == [if ys[k].Env? then Merge(ys[k]) else ys[k]] + MergeAll(ys[k + 1..], parent)
  {
    assert ys[k..][0] == ys[k] && ys[k..][1..] == ys[k + 1..];
    if ys[k].Env? {
      assert ys[k] in parent.contents;
      var j :| 0 <= j < |parent.contents| && parent.contents[j] == ys[k];
    }
  }

  // ---------------------------------------------------------------------
  // equify (lxl.py:486-490), applied to every line by `Line.equify`

  /** Every line anywhere in `n` equifies: each equation followed by text
      closes. */
  predicate Equifiable(n: Node)
    requires TreeOk(n)
  {
    match n
    case LineNode(l) => Equify(l).Ok?
    case Env(_, _, _, cs) => forall k :: 0 <= k < |cs| ==> Equifiable(cs[k])
    case Para(_) => true
  }

  /** `m` is `n` with every line replaced by its equified form and nothing
      else changed. */
  predicate EquifiedFrom(n: Node, m: Node)
    requires TreeOk(n)
  {
    match n
    case LineNode(l) => m.LineNode? && Equify(l) == Ok(m.line)
    case Env(name, additional, indent, cs) =>
      && m.Env? && m.name == name && m.additional == additional && m.indent == indent
      && |m.contents| == |cs|
      && forall k :: 0 <= k < |cs| ==> EquifiedFrom(cs[k], m.contents[k])
    case Para(_) => m == n
  }

  /** `equify` on a node: lines equified, environments recursed into
      (`tikzpicture`s too), paragraphs left alone. */
  function EquifyNode(n: Node): (r: Result<Node>)
    requires TreeOk(n)
    ensures r.Ok? <==> Equifiable(n)
    ensures r.Ok? ==> EquifiedFrom(n, r.value)
    decreases n
  {
    match n
    case LineNode(l) =>
      var e :- Equify(l);
      Ok(LineNode(e))
    case Env(name, additional, indent, cs) =>
      var cs' :- EquifyAll(cs);
      Ok(Env(name, additional, indent, cs'))
    case Para(_) => Ok(n)
  }

  function EquifyAll(cs: seq<Node>): (r: Result<seq<Node>>)
    requires AllOk(cs)
    ensures r.Ok? <==> forall k :: 0 <= k < |cs| ==> Equifiable(cs[k])
    ensures r.Ok? ==> |r.value| == |cs| && forall k :: 0 <= k < |cs| ==> EquifiedFrom(cs[k], r.value[k])
    decreases cs
  {
    if cs == [] then Ok([])
    else
      assert forall k :: 0 <= k < |cs| - 1 ==> cs[1..][k] == cs[k + 1];
      var x :- EquifyNode(cs[0]);
      var xs :- EquifyAll(cs[1..]);
      Ok([x] + xs)
  }

  lemma EquifyAllAt(cs: seq<Node>, k: nat)
    requires AllOk(cs) && k < |cs|
    ensures AllOk(cs[k..]) && AllOk(cs[k + 1..]) && TreeOk(cs[k])
    ensures EquifyAll(cs[k..]) ==
              match EquifyNode(cs[k])
              case Err(e) => Err(e)
              case Ok(x) => Prepend([x], EquifyAll(cs[k + 1..]))
  {
    assert cs[k..][0] == cs[k] && cs[k..][1..] == cs[k + 1..];
  }

  /** `Environment.equify`: `for line in self.contents: line.equify()`. */
  method EquifyTree(n: Node) returns (r: Result<Node>)
    requires TreeOk(n)
    ensures r == EquifyNode(n)
    decreases n
  {
    match n {
      case LineNode(l) =>
        var e := EquifyLine(l);
        if e.Err? {
          return Err(e.error);
        }
        r := Ok(LineNode(e.value));
      case Para(_) =>
        r := Ok(n);
      case Env(name, additional, indent, cs) =>
        var out: seq<Node> := [];
        PrependNil(EquifyAll(cs));
        assert cs[0..] == cs;
        for k := 0 to |cs|
          invariant AllOk(cs[k..])
          invariant EquifyAll(cs) == Prepend(out, EquifyAll(cs[k..]))
        {
          EquifyAllAt(cs, k);
          var x := EquifyTree(cs[k]);
          if x.Err? {
            return Err(x.error);
          }
          PrependAssoc(out, [x.value], EquifyAll(cs[k + 1..]));
          out := out + [x.value];
        }
        assert cs[|cs|..] == [];
        assert out + [] == out;
        r := Ok(Env(name, additional, indent, out));
    }
  }

  // ---------------------------------------------------------------------
  // make_paragraphs (lxl.py:492-509) and split_paragraphs (lxl.py:150-151, 267-282)

  /** One `Environment('# p')` per group, holding that group as a paragraph. */
  function ParagraphEnvs(gs: seq<seq<Item>>): (r: seq<Node>)
    ensures |r| == |gs|
    ensures forall k :: 0 <= k < |gs| ==> r[k] == Env("p", [], -1, [Para(gs[k])])
  {
    if gs == [] then [] else [Env("p", [], -1, [Para(gs[0])])] + ParagraphEnvs(gs[1..])
  }

  lemma ParagraphSize(g: seq<Item>)
    ensures Size(Env("p", [], -1, [Para(g)])) == 2
  {
    assert [Para(g)][1..] == [];
    assert SizeAll([Para(g)]) == 1;
    assert Bonus("p") == 0 by {
      assert |"p"| == 1;
    }
  }

  /** `split_paragraphs`: a line becomes its runs between `parbreak`
      tokens, each a paragraph in a `p` environment; any other node is
      kept. */
  function SplitParagraphs(x: Node): (r: seq<Node>)
    ensures forall y :: y in r ==> !y.LineNode? && Size(y) <= Size(x)
  {
    match x
    case LineNode(l) =>
      var r := ParagraphEnvs(SplitBy(l.chars, Tok("parbreak")));
      assert forall y :: y in r ==> Size(y) == 2 by {
        forall y | y in r
          ensures Size(y) == 2
        {
          var k :| 0 <= k < |r| && r[k] == y;
          ParagraphSize(r[k].contents[0].chars);
        }
      }
      r
    case Env(_, _, _, _) => [x]
    case Para(_) => [x]
  }

  /** The children of a `make_paragraphs`, before the recursion. */
  function SplitAll(cs: seq<Node>): (r: seq<Node>)
    ensures forall y :: y in r ==> !y.LineNode? && Size(y) <= SizeAll(cs)
  {
    if cs == [] then [] else SplitParagraphs(cs[0]) + SplitAll(cs[1..])
  }

  /** No environment of `n` other than a `tikzpicture` (and what it holds)
      has a line among its children. */
  predicate NoLinesDeep(n: Node)
  {
    match n
    case Env(name, _, _, cs) =>
      name == "tikzpicture" || (NoLines(cs) && forall k :: 0 <= k < |cs| ==> NoLinesDeep(cs[k]))
    case LineNode(_) => true
    case Para(_) => true
  }

  predicate AllNoLinesDeep(ns: seq<Node>)
  {
    forall k :: 0 <= k < |ns| ==> NoLinesDeep(ns[k])
  }

  /** `make_paragraphs`: every line child split into paragraphs, then the
      children recursed into; a `tikzpicture` is left as it is. */
  function MakeParagraphs(n: Node): (r: Node)
    ensures Name(r) == Name(n) && (r.Env? <==> n.Env?)
    ensures n.Env? && n.name != "tikzpicture" ==> forall y :: y in r.contents ==> !y.LineNode?
    ensures NoLinesDeep(r)
    decreases Size(n), 1
  {
    match n
    case Env(name, additional, indent, cs) =>
      if name == "tikzpicture" then n
      else Env(name, additional, indent, ParagraphsAll(SplitAll(cs), Size(n)))
    case LineNode(_) => n
    case Para(_) => n
  }

  /** `for x in self.contents: x.make_paragraphs()`. */
  function ParagraphsAll(ys: seq<Node>, bound: nat): (r: seq<Node>)
    requires forall y :: y in ys ==> Size(y) < bound
    ensures |r| == |ys| && forall k :: 0 <= k < |ys| ==> (r[k].LineNode? <==> ys[k].LineNode?)
    ensures AllNoLinesDeep(r)
    decreases bound, 0, |ys|
  {
    if ys == [] then []
    else
      assert ys[0] in ys;
      [MakeParagraphs(ys[0])] + ParagraphsAll(ys[1..], bound)
  }

  /** The texts of the paragraph environments among `ns`. */
  function ParaTexts(ns: seq<Node>): seq<seq<Item>>
  {
    if ns == [] then []
    else
      var x := ns[0];
      (if x.Env? && |x.contents| == 1 && x.contents[0].Para? then [x.contents[0].chars] else [])
      + ParaTexts(ns[1..])
  }

  lemma {:induction false} ParaTextsOfEnvs(gs: seq<seq<Item>>)
    ensures ParaTexts(ParagraphEnvs(gs)) == gs
  {
    if gs != [] {
      var r := ParagraphEnvs(gs);
      assert r[1..] == ParagraphEnvs(gs[1..]);
      ParaTextsOfEnvs(gs[1..]);
      assert [gs[0]] + gs[1..] == gs;
    }
  }

  /** A line's paragraphs hold its items in order with the `parbreak`s
      left out, and none of them is empty or holds a `parbreak`. */
  lemma SplitParagraphsText(l: Line)
    ensures Concat(ParaTexts(SplitParagraphs(LineNode(l)))) == Without(l.chars, Tok("parbreak"))
    ensures forall g :: g in ParaTexts(SplitParagraphs(LineNode(l))) ==> g != [] && Tok("parbreak") !in g
  {
    var gs := SplitBy(l.chars, Tok("parbreak"));
    ParaTextsOfEnvs(gs);
    SplitByConcat(l.chars, Tok("parbreak"));
  }

  /** `Line.split_paragraphs`, with its loop filling one `p` environment
      per group. */
  method SplitLine(l: Line) returns (pars: seq<Node>)
    ensures pars == SplitParagraphs(LineNode(l))
  {
    var texts := SplitBy(l.chars, Tok("parbreak"));
    pars := [];
    for x := 0 to |texts|
      invariant |pars| == x
      invariant forall j :: 0 <= j < x ==> pars[j] == Env("p", [], -1, [Para(texts[j])])
    {
      pars := pars + [Env("p", [], -1, [Para(texts[x])])];
    }
  }

  lemma SplitAllAt(cs: seq<Node>, k: nat)
    requires k < |cs|
    ensures SplitAll(cs[k..]) == SplitParagraphs(cs[k]) + SplitAll(cs[k + 1..])
  {
    assert cs[k..][0] == cs[k] && cs[k..][1..] == cs[k + 1..];
  }

  lemma ParagraphsAllAt(ys: seq<Node>, bound: nat, k: nat)
    requires forall y :: y in ys ==> Size(y) < bound
    requires k < |ys|
    ensures Size(ys[k]) < bound
    ensures ParagraphsAll(ys[k..], bound) == [MakeParagraphs(ys[k])] + ParagraphsAll(ys[k + 1..], bound)
  {
    assert ys[k] in ys;
    assert ys[k..][0] == ys[k] && ys[k..][1..] == ys[k + 1..];
  }

  /** `Environment.make_paragraphs`. */
  method MakeParagraphsTree(n: Node) returns (r: Node)
    ensures r == MakeParagraphs(n)
    decreases Size(n), 1
  {
    if !n.Env? || n.name == "tikzpicture" {
      return n;
    }
    var paragraphed := SplitChildren(n.contents);
    var out := ParagraphChildren(paragraphed, Size(n));
    r := Env(n.name, n.additional, n.indent, out);
  }

  /** The first loop of `make_paragraphs`: each line child split. */
  method SplitChildren(cs: seq<Node>) returns (paragraphed: seq<Node>)
    ensures paragraphed == SplitAll(cs)
  {
    paragraphed := [];
    assert cs[0..] == cs;
    for k := 0 to |cs|
      invariant paragraphed + SplitAll(cs[k..]) == SplitAll(cs)
    {
      var more: seq<Node>;
      if cs[k].LineNode? {
        more := SplitLine(cs[k].line);
      } else {
        more := [cs[k]];
      }
      SplitAllAt(cs, k);
      Assoc(paragraphed, more, SplitAll(cs[k + 1..]));
      paragraphed := paragraphed + more;
    }
    assert cs[|cs|..] == [];
    assert paragraphed + [] == paragraphed;
  }

  /** The recursion of `make_paragraphs` over the new children, in order. */
  method ParagraphChildren(ys: seq<Node>, bound: nat) returns (out: seq<Node>)
    requires forall y :: y in ys ==> Size(y) < bound
    ensures out == ParagraphsAll(ys, bound)
    decreases bound, 0
  {
    out := [];
    assert ys[0..] == ys;
    for k := 0 to |ys|
      invariant out + ParagraphsAll(ys[k..], bound) == ParagraphsAll(ys, bound)
    {
      ParagraphsAllAt(ys, bound, k);
      var x := MakeParagraphsTree(ys[k]);
      Assoc(out, [x], ParagraphsAll(ys[k + 1..], bound));
      out := out + [x];
    }
    assert ys[|ys|..] == [];
    assert out + [] == out;
  }

  // ---------------------------------------------------------------------
  // group_list_items (lxl.py:511-544)

  /** The values `in_list` takes: its start value and the two item kinds. */
  predicate ListKind(s: string)
  {
    s == "none" || s == "uli" || s == "oli"
  }

  /** `new_contents` and `in_list`. */
  datatype ListState = ListState(out: seq<Node>, inList: string)

  /** One turn of the loop. A child named like `in_list` is renamed `li`
      and appended to the last new child, which must be an environment
      (`new_contents[-1].contents`); `in_list` is never reset, so that child
      need not be the list the run started. A `uli`/`oli` child of the
      other kind starts a new `ul`/`ol`. Anything else is kept. */
  function ListStep(st: ListState, x: Node): (r: Result<ListState>)
    requires ListKind(st.inList)
    ensures r.Ok? ==> ListKind(r.value.inList)
  {
    var n := |st.out| - 1;
    if Name(x) == st.inList then
      if st.out != [] && st.out[n].Env? then
        var e := st.out[n];
        Ok(ListState(st.out[..n] + [e.(contents := e.contents + [x.(name := "li")])], st.inList))
      else Err(ListItemWithoutList)
    else if Name(x) == "uli" || Name(x) == "oli" then
      Ok(ListState(st.out + [Env(Name(x)[..2], [], -1, [x.(name := "li")])], Name(x)))
    else Ok(ListState(st.out + [x], st.inList))
  }

  function ListFold(cs: seq<Node>, st: ListState): Result<ListState>
    requires ListKind(st.inList)
    decreases |cs|
  {
    if cs == [] then Ok(st)
    else
      var next :- ListStep(st, cs[0]);
      ListFold(cs[1..], next)
  }

  /** No child is named `uli` or `oli`. */
  predicate NoItems(ns: seq<Node>)
  {
    forall k :: 0 <= k < |ns| ==> Name(ns[k]) != "uli" && Name(ns[k]) != "oli"
  }

  predicate NoLines(ns: seq<Node>)
  {
    forall k :: 0 <= k < |ns| ==> !ns[k].LineNode?
  }

  /** No environment anywhere in `n`, `n` included, has an item child. */
  predicate NoItemsDeep(n: Node)
  {
    match n
    case Env(_, _, _, cs) => NoItems(cs) && forall k :: 0 <= k < |cs| ==> NoItemsDeep(cs[k])
    case LineNode(_) => true
    case Para(_) => true
  }

  /** The new `self.contents`, before the recursion. */
  function ListLevel(cs: seq<Node>): (r: Result<seq<Node>>)
    ensures r.Ok? ==> NoItems(r.value) && SizeAll(r.value) <= SizeAll(cs)
    ensures r.Ok? && NoLines(cs) ==> NoLines(r.value)
    ensures r.Ok? && NoLines(cs) && AllNoLinesDeep(cs) ==> AllNoLinesDeep(r.value)
  {
    var init := ListState([], "none");
    ListFoldProperties(cs, init);
    var st :- ListFold(cs, init);
    Ok(st.out)
  }

  /** The item kinds, the lists they start and the weights involved. */
  lemma KindFacts()
    ensures "uli"[..2] == "ul" && "oli"[..2] == "ol"
    ensures "uli" != "none" && "oli" != "none" && "uli" != "oli"
    ensures Bonus("uli") == 1 && Bonus("oli") == 1 && Bonus("none") == 1
    ensures Bonus("li") == 0 && Bonus("ul") == 0 && Bonus("ol") == 0
  {
    assert |"li"| == 2 && |"ul"| == 2 && |"ol"| == 2 && |"none"| == 4;
    assert "uli"[0] != "oli"[0];
  }

  lemma ListStepProperties(st: ListState, x: Node)
    requires ListKind(st.inList) && ListStep(st, x).Ok?
    ensures NoItems(st.out) ==> NoItems(ListStep(st, x).value.out)
    ensures NoLines(st.out) && !x.LineNode? ==> NoLines(ListStep(st, x).value.out)
    ensures SizeAll(ListStep(st, x).value.out) <= SizeAll(st.out) + Size(x)
  {
    KindFacts();
    if Name(x) == st.inList {
      ListStepJoin(st, x);
    } else if Name(x) == "uli" || Name(x) == "oli" {
      ListStepWrap(st, x);
    } else {
      var r := ListStep(st, x).value.out;
      assert r == st.out + [x];
      SizeAllAppend(st.out, [x]);
      SizeAllOne(x);
    }
  }

  lemma ListStepJoin(st: ListState, x: Node)
    requires ListKind(st.inList) && ListStep(st, x).Ok? && Name(x) == st.inList
    ensures NoItems(st.out) ==> NoItems(ListStep(st, x).value.out)
    ensures NoLines(st.out) ==> NoLines(ListStep(st, x).value.out)
    ensures SizeAll(ListStep(st, x).value.out) <= SizeAll(st.out) + Size(x)
  {
    KindFacts();
    var n := |st.out| - 1;
    var e := st.out[n];
    var li := x.(name := "li");
    var e' := e.(contents := e.contents + [li]);
    assert Size(e') == Size(e) + Size(x) - 1 by {
      SizeAllAppend(e.contents, [li]);
      SizeAllOne(li);
    }
    ReplaceLast(st.out, e');
  }

  /** Replacing the last child by one of the same name and kind keeps
      `NoItems` and `NoLines`, and changes the size by the difference. */
  lemma ReplaceLast(ns: seq<Node>, y: Node)
    requires ns != [] && Name(y) == Name(ns[|ns| - 1]) && y.LineNode? == ns[|ns| - 1].LineNode?
    ensures NoItems(ns) ==> NoItems(ns[..|ns| - 1] + [y])
    ensures NoLines(ns) ==> NoLines(ns[..|ns| - 1] + [y])
    ensures SizeAll(ns[..|ns| - 1] + [y]) + Size(ns[|ns| - 1]) == SizeAll(ns) + Size(y)
  {
    var n := |ns| - 1;
    var r := ns[..n] + [y];
    SameShape(ns, r);
    SizeAllLast(ns, y);
  }

  /** Children with the same names and kinds, position by position, share
      `NoItems` and `NoLines`. */
  lemma SameShape(ns: seq<Node>, r: seq<Node>)
    requires ns != [] && r != [] && r == ns[..|ns| - 1] + [r[|r| - 1]]
    requires Name(r[|r| - 1]) == Name(ns[|ns| - 1]) && r[|r| - 1].LineNode? == ns[|ns| - 1].LineNode?
    ensures NoItems(ns) ==> NoItems(r)
    ensures NoLines(ns) ==> NoLines(r)
  {
    forall k | 0 <= k < |r|
      ensures Name(r[k]) == Name(ns[k]) && r[k].LineNode? == ns[k].LineNode?
    {
      if k < |r| - 1 {
        assert r[k] == ns[k];
      }
    }
  }

  lemma SizeAllLast(ns: seq<Node>, y: Node)
    requires ns != []
    ensures SizeAll(ns[..|ns| - 1] + [y]) + Size(ns[|ns| - 1]) == SizeAll(ns) + Size(y)
  {
    var n := |ns| - 1;
    var pre, last := ns[..n], ns[n];
    assert ns == pre + [last];
    SizeAllAppend(pre, [last]);
    SizeAllAppend(pre, [y]);
    SizeAllOne(last);
    SizeAllOne(y);
  }

  lemma ListStepWrap(st: ListState, x: Node)
    requires ListKind(st.inList) && Name(x) != st.inList && (Name(x) == "uli" || Name(x) == "oli")
    ensures ListStep(st, x).Ok?
    ensures NoItems(st.out) ==> NoItems(ListStep(st, x).value.out)
    ensures NoLines(st.out) ==> NoLines(ListStep(st, x).value.out)
    ensures SizeAll(ListStep(st, x).value.out) <= SizeAll(st.out) + Size(x)
  {
    KindFacts();
    var li := x.(name := "li");
    var w := Env(Name(x)[..2], [], -1, [li]);
    assert ListStep(st, x).value.out == st.out + [w];
    SizeAllOne(li);
    assert Size(w) == Size(x);
    SizeAllAppend(st.out, [w]);
    SizeAllOne(w);
  }

  lemma SizeAllOne(x: Node)
    ensures SizeAll([x]) == Size(x)
  {
    assert [x][1..] == [];
  }

  /** Renaming an item `li` or appending it to the last new child keeps
      every environment that is not a `tikzpicture` free of lines. */
  lemma ListStepDeep(st: ListState, x: Node)
    requires ListKind(st.inList) && ListStep(st, x).Ok?
    requires NoLines(st.out) && AllNoLinesDeep(st.out) && !x.LineNode? && NoLinesDeep(x)
    ensures AllNoLinesDeep(ListStep(st, x).value.out)
  {
    KindFacts();
    if Name(x) == st.inList {
      var li := x.(name := "li");
      assert NoLinesDeep(li);
      var n := |st.out| - 1;
      var e := st.out[n];
      NoLinesDeepPush(e, li);
      AllNoLinesDeepLast(st.out, e.(contents := e.contents + [li]));
    } else if Name(x) == "uli" || Name(x) == "oli" {
      var li := x.(name := "li");
      assert NoLinesDeep(li);
      var w := Env(Name(x)[..2], [], -1, [li]);
      assert NoLinesDeep(w);
      AllNoLinesDeepAppend(st.out, w);
    } else {
      AllNoLinesDeepAppend(st.out, x);
    }
  }

  lemma NoLinesDeepPush(e: Node, y: Node)
    requires e.Env? && NoLinesDeep(e) && NoLinesDeep(y) && !y.LineNode?
    ensures NoLinesDeep(e.(contents := e.contents + [y]))
  {
    if e.name != "tikzpicture" {
      var cs := e.contents + [y];
      assert forall k :: 0 <= k < |cs| ==> cs[k] == y || cs[k] == e.contents[k];
    }
  }

  lemma AllNoLinesDeepLast(ns: seq<Node>, y: Node)
    requires ns != [] && AllNoLinesDeep(ns) && NoLinesDeep(y)
    ensures AllNoLinesDeep(ns[..|ns| - 1] + [y])
  {
    var r := ns[..|ns| - 1] + [y];
    assert forall k :: 0 <= k < |ns| - 1 ==> r[k] == ns[k];
  }

  lemma AllNoLinesDeepAppend(ns: seq<Node>, y: Node)
    requires AllNoLinesDeep(ns) && NoLinesDeep(y)
    ensures AllNoLinesDeep(ns + [y])
  {
    var r := ns + [y];
    assert forall k :: 0 <= k < |ns| ==> r[k] == ns[k];
  }

  lemma {:induction false} ListFoldProperties(cs: seq<Node>, st: ListState)
    requires ListKind(st.inList)
    ensures ListFold(cs, st).Ok? ==> SizeAll(ListFold(cs, st).value.out) <= SizeAll(st.out) + SizeAll(cs)
    ensures ListFold(cs, st).Ok? && NoItems(st.out) ==> NoItems(ListFold(cs, st).value.out)
    ensures ListFold(cs, st).Ok? && NoLines(st.out) && NoLines(cs) ==> NoLines(ListFold(cs, st).value.out)
    ensures ListFold(cs, st).Ok? && NoLines(st.out) && NoLines(cs) && AllNoLinesDeep(st.out) && AllNoLinesDeep(cs) ==>
              AllNoLinesDeep(ListFold(cs, st).value.out)
    decreases |cs|
  {
    if cs != [] && ListStep(st, cs[0]).Ok? {
      ListStepProperties(st, cs[0]);
      ListFoldProperties(cs[1..], ListStep(st, cs[0]).value);
      HeadTail(cs);
      if NoLines(st.out) && NoLines(cs) && AllNoLinesDeep(st.out) && AllNoLinesDeep(cs) {
        ListStepDeep(st, cs[0]);
      }
    }
  }

  /** `group_list_items` on a node: the children regrouped, then each
      child regrouped. */
  function GroupListItems(n: Node): (r: Result<Node>)
    ensures r.Ok? ==> Name(r.value) == Name(n) && (r.value.LineNode? <==> n.LineNode?) && (r.value.Env? <==> n.Env?)
    ensures r.Ok? && n.Env? ==> NoItems(r.value.contents)
    ensures r.Ok? && n.Env? && NoLines(n.contents) ==> NoLines(r.value.contents)
    ensures r.Ok? ==> NoItemsDeep(r.value)
    ensures r.Ok? && NoLinesDeep(n) ==> NoLinesDeep(r.value)
    decreases Size(n), 1
  {
    match n
    case Env(name, additional, indent, cs) =>
      var level :- ListLevel(cs);
      SizeAllBound(level);
      var cs' :- GroupAll(level, Size(n));
      Ok(Env(name, additional, indent, cs'))
    case LineNode(_) => Ok(n)
    case Para(_) => Ok(n)
  }

  /** `for x in self.contents: x.group_list_items()`. */
  function GroupAll(ys: seq<Node>, bound: nat): (r: Result<seq<Node>>)
    requires forall y :: y in ys ==> Size(y) < bound
    ensures r.Ok? ==> |r.value| == |ys|
    ensures r.Ok? ==> forall k :: 0 <= k < |ys| ==> Name(r.value[k]) == Name(ys[k]) && (r.value[k].LineNode? <==> ys[k].LineNode?)
    ensures r.Ok? ==> forall k :: 0 <= k < |ys| ==> NoItemsDeep(r.value[k])
    ensures r.Ok? ==> forall k :: 0 <= k < |ys| ==> NoLinesDeep(ys[k]) ==> NoLinesDeep(r.value[k])
    decreases bound, 0, |ys|
  {
    if ys == [] then Ok([])
    else
      assert ys[0] in ys;
      var x :- GroupListItems(ys[0]);
      var xs :- GroupAll(ys[1..], bound);
      Ok([x] + xs)
  }

  /** Consecutive items of one kind end up in one new list. */
  lemma ListRun(a: Node, b: Node)
    requires a.Env? && a.name == "uli" && b.Env? && b.name == "uli"
    ensures ListLevel([a, b]) == Ok([Env("ul", [], -1, [a.(name := "li"), b.(name := "li")])])
  {
    KindFacts();
    var a', b' := a.(name := "li"), b.(name := "li");
    var w := Env("ul", [], -1, [a']);
    var s0 := ListState([], "none");
    var s1 := ListState([w], "uli");
    var s2 := ListState([w.(contents := [a', b'])], "uli");
    assert [] + [w] == [w];
    assert ListStep(s0, a) == Ok(s1);
    assert w.contents + [b'] == [a', b'];
    assert w.(contents := w.contents + [b']) == w.(contents := [a', b']);
    assert [w][..0] + [w.(contents := w.contents + [b'])] == s2.out;
    assert ListStep(s1, b) == Ok(s2);
    assert [a, b][1..] == [b] && [b][1..] == [];
    assert ListFold([a, b], s0) == ListFold([b], s1) == ListFold([], s2);
  }

  /** `in_list` survives a child that is not an item: a later item of the
      same kind is appended to that child instead of starting a new list. */
  lemma ListQuirk(a: Node, c: Node, b: Node)
    requires a.Env? && a.name == "uli" && b.Env? && b.name == "uli"
    requires c.Env? && !ListKind(c.name)
    ensures ListLevel([a, c, b])
            == Ok([Env("ul", [], -1, [a.(name := "li")]), c.(contents := c.contents + [b.(name := "li")])])
  {
    KindFacts();
    var a', b' := a.(name := "li"), b.(name := "li");
    var w := Env("ul", [], -1, [a']);
    var s0 := ListState([], "none");
    var s1 := ListState([w], "uli");
    var s2 := ListState([w, c], "uli");
    var s3 := ListState([w, c.(contents := c.contents + [b'])], "uli");
    assert [] + [w] == [w];
    assert ListStep(s0, a) == Ok(s1);
    assert [w] + [c] == [w, c];
    assert ListStep(s1, c) == Ok(s2);
    assert [w, c][..1] + [c.(contents := c.contents + [b'])] == s3.out;
    assert ListStep(s2, b) == Ok(s3);
    assert [a, c, b][1..] == [c, b] && [c, b][1..] == [b] && [b][1..] == [];
    assert ListFold([a, c, b], s0) == ListFold([c, b], s1) == ListFold([b], s2) == ListFold([], s3);
  }

  /** A first child named `none` matches the initial `in_list` and has no
      list to join. */
  lemma ListNoneFirst(cs: seq<Node>)
    requires cs != [] && Name(cs[0]) == "none"
    ensures ListLevel(cs) == Err(ListItemWithoutList)
  {
  }

  /** Children with no item and no `none` among them are kept as they are. */
  lemma {:induction false} ListFoldKeeps(cs: seq<Node>, out: seq<Node>, inList: string)
    requires ListKind(inList)
    requires forall k :: 0 <= k < |cs| ==> !ListKind(Name(cs[k]))
    ensures ListFold(cs, ListState(out, inList)) == Ok(ListState(out + cs, inList))
    decreases |cs|
  {
    if cs == [] {
      assert out + cs == out;
    } else {
      assert ListStep(ListState(out, inList), cs[0]) == Ok(ListState(out + [cs[0]], inList));
      assert forall k :: 0 <= k < |cs| - 1 ==> cs[1..][k] == cs[k + 1];
      ListFoldKeeps(cs[1..], out + [cs[0]], inList);
      assert (out + [cs[0]]) + cs[1..] == out + cs;
    }
  }

  lemma ListLevelKeeps(cs: seq<Node>)
    requires forall k :: 0 <= k < |cs| ==> !ListKind(Name(cs[k]))
    ensures ListLevel(cs) == Ok(cs)
  {
    ListFoldKeeps(cs, [], "none");
    assert [] + cs == cs;
  }

  predicate IsItem(x: Node)
  {
    Name(x) == "uli" || Name(x) == "oli"
  }

  /** The length of the run of `kind` items at the head of `cs`. */
  function ItemRun(cs: seq<Node>, kind: string): (n: nat)
    requires kind == "uli" || kind == "oli"
    ensures n <= |cs|
    ensures forall k :: 0 <= k < n ==> Name(cs[k]) == kind && cs[k].Env?
    ensures n < |cs| ==> Name(cs[n]) != kind
    decreases |cs|
  {
    if cs == [] || Name(cs[0]) != kind then 0
    else
      HeadTail(cs);
      1 + ItemRun(cs[1..], kind)
  }

  /** Items renamed `li`. */
  function AsItems(cs: seq<Node>): (r: seq<Node>)
    requires forall k :: 0 <= k < |cs| ==> cs[k].Env?
    ensures |r| == |cs| && forall k :: 0 <= k < |cs| ==> r[k] == cs[k].(name := "li")
  {
    if cs == [] then [] else [cs[0].(name := "li")] + AsItems(cs[1..])
  }

  /** The new `ul` (for `uli`) or `ol` (for `oli`) holding `items`. */
  function ListOf(kind: string, items: seq<Node>): Node
    requires kind == "uli" || kind == "oli"
    requires forall k :: 0 <= k < |items| ==> items[k].Env?
  {
    Env(kind[..2], [], -1, AsItems(items))
  }

  /** The grouping `group_list_items` is written to make: every maximal run
      of `uli` (`oli`) children wrapped in one new `ul` (`ol`) with its
      members renamed `li`; every other child kept, in order. */
  function Wrapped(cs: seq<Node>): seq<Node>
    decreases |cs|
  {
    if cs == [] then []
    else if IsItem(cs[0]) then
      var n := ItemRun(cs, Name(cs[0]));
      [ListOf(Name(cs[0]), cs[..n])] + Wrapped(cs[n..])
    else [cs[0]] + Wrapped(cs[1..])
  }

  /** `cs`, met with `in_list` holding `inList`, starts no child named like
      `in_list`: no run continues the kind of an earlier one across another
      child (`ListQuirk`), and no child is named `none` before the first item
      (`ListNoneFirst`). */
  predicate Separated(cs: seq<Node>, inList: string)
    decreases |cs|
  {
    cs == [] ||
    (Name(cs[0]) != inList &&
     if IsItem(cs[0]) then Separated(cs[ItemRun(cs, Name(cs[0]))..], Name(cs[0]))
     else Separated(cs[1..], inList))
  }

  /** On separated children `group_list_items` makes exactly the grouping
      `Wrapped` describes. */
  lemma ListLevelWrapped(cs: seq<Node>)
    requires Separated(cs, "none")
    ensures ListLevel(cs) == Ok(Wrapped(cs))
  {
    ListFoldWrapped(cs, [], "none");
    assert [] + Wrapped(cs) == Wrapped(cs);
  }

  lemma {:induction false} ListFoldWrapped(cs: seq<Node>, out: seq<Node>, inList: string)
    requires ListKind(inList) && Separated(cs, inList)
    ensures ListFold(cs, ListState(out, inList)).Ok?
    ensures ListFold(cs, ListState(out, inList)).value.out == out + Wrapped(cs)
    decreases |cs|, 1
  {
    if cs == [] {
      assert out + [] == out;
    } else if IsItem(cs[0]) {
      ListFoldWrappedRun(cs, out, inList);
    } else {
      var x := cs[0];
      assert ListFold(cs, ListState(out, inList)) == ListFold(cs[1..], ListState(out + [x], inList)) by {
        KindFacts();
        assert ListStep(ListState(out, inList), x) == Ok(ListState(out + [x], inList));
      }
      assert Separated(cs[1..], inList);
      ListFoldWrapped(cs[1..], out + [x], inList);
      assert Wrapped(cs) == [x] + Wrapped(cs[1..]);
      assert (out + [x]) + Wrapped(cs[1..]) == out + Wrapped(cs);
    }
  }

  /** A run at the head of `cs` becomes one list, then the rest follows. */
  lemma {:induction false} ListFoldWrappedRun(cs: seq<Node>, out: seq<Node>, inList: string)
    requires ListKind(inList) && Separated(cs, inList) && cs != [] && IsItem(cs[0])
    ensures ListFold(cs, ListState(out, inList)).Ok?
    ensures ListFold(cs, ListState(out, inList)).value.out == out + Wrapped(cs)
    decreases |cs|, 0
  {
    var x := cs[0];
    var kind := Name(x);
    var n := ItemRun(cs, kind);
    var w := ListOf(kind, cs[..n]);
    assert ListFold(cs, ListState(out, inList)) == ListFold(cs[n..], ListState(out + [w], kind)) by {
      assert cs[..1] == [x];
      ListStepOpens(out, inList, x);
      ListFoldAt(cs, 0, ListState(out, inList));
      assert cs[0..] == cs;
      ListFoldRun(cs, kind, out, 1);
    }
    assert Separated(cs[n..], kind);
    ListFoldWrapped(cs[n..], out + [w], kind);
    assert Wrapped(cs) == [w] + Wrapped(cs[n..]);
    assert (out + [w]) + Wrapped(cs[n..]) == out + Wrapped(cs);
  }

  /** An item of a kind other than `in_list` opens a new list. */
  lemma ListStepOpens(out: seq<Node>, inList: string, x: Node)
    requires ListKind(inList) && IsItem(x) && Name(x) != inList
    ensures x.Env?
    ensures ListStep(ListState(out, inList), x) == Ok(ListState(out + [ListOf(Name(x), [x])], Name(x)))
  {
    KindFacts();
    assert AsItems([x]) == [x.(name := "li")];
  }

  /** An item of the kind of the list at the end joins that list. */
  lemma ListStepJoins(pre: seq<Node>, kind: string, items: seq<Node>, x: Node)
    requires kind == "uli" || kind == "oli"
    requires forall k :: 0 <= k < |items| ==> items[k].Env?
    requires Name(x) == kind
    ensures x.Env?
    ensures ListStep(ListState(pre + [ListOf(kind, items)], kind), x)
            == Ok(ListState(pre + [ListOf(kind, items + [x])], kind))
  {
    KindFacts();
    var w := ListOf(kind, items);
    var li := x.(name := "li");
    assert AsItems(items) + [li] == AsItems(items + [x]);
    assert (pre + [w])[..|pre|] == pre;
  }

  /** The items of a run after its first join the list the first one
      started. */
  lemma {:induction false} ListFoldRun(cs: seq<Node>, kind: string, pre: seq<Node>, j: nat)
    requires kind == "uli" || kind == "oli"
    requires 1 <= j <= ItemRun(cs, kind)
    ensures ListFold(cs[j..], ListState(pre + [ListOf(kind, cs[..j])], kind))
            == ListFold(cs[ItemRun(cs, kind)..], ListState(pre + [ListOf(kind, cs[..ItemRun(cs, kind)])], kind))
    decreases ItemRun(cs, kind) - j
  {
    if j < ItemRun(cs, kind) {
      ListFoldJoin(cs, kind, pre, j);
      ListFoldRun(cs, kind, pre, j + 1);
    }
  }

  /** Item `j` of a run joins the list holding the items before it. */
  lemma ListFoldJoin(cs: seq<Node>, kind: string, pre: seq<Node>, j: nat)
    requires kind == "uli" || kind == "oli"
    requires 1 <= j < ItemRun(cs, kind)
    ensures ListFold(cs[j..], ListState(pre + [ListOf(kind, cs[..j])], kind))
            == ListFold(cs[j + 1..], ListState(pre + [ListOf(kind, cs[..j + 1])], kind))
  {
    var items := cs[..j];
    PrefixSnoc(cs, j);
    assert forall k :: 0 <= k < |items| ==> items[k].Env? by {
      assert forall k :: 0 <= k < j ==> items[k] == cs[k];
    }
    assert Name(cs[j]) == kind;
    var st := ListState(pre + [ListOf(kind, items)], kind);
    ListStepJoins(pre, kind, items, cs[j]);
    ListFoldAt(cs, j, st);
  }

  lemma ListFoldAt(cs: seq<Node>, k: nat, st: ListState)
    requires ListKind(st.inList) && k < |cs|
    ensures ListFold(cs[k..], st) ==
              match ListStep(st, cs[k])
              case Err(e) => Err(e)
              case Ok(next) => ListFold(cs[k + 1..], next)
  {
    assert cs[k..][0] == cs[k] && cs[k..][1..] == cs[k + 1..];
  }

  lemma GroupAllAt(ys: seq<Node>, bound: nat, k: nat)
    requires forall y :: y in ys ==> Size(y) < bound
    requires k < |ys|
    ensures Size(ys[k]) < bound
    ensures GroupAll(ys[k..], bound) ==
              match GroupListItems(ys[k])
              case Err(e) => Err(e)
              case Ok(x) => Prepend([x], GroupAll(ys[k + 1..], bound))
  {
    assert ys[k] in ys;
    assert ys[k..][0] == ys[k] && ys[k..][1..] == ys[k + 1..];
  }

  /** The loop of `Environment.group_list_items`, with `in_list`. */
  method ListScan(cs: seq<Node>) returns (r: Result<seq<Node>>)
    ensures r == ListLevel(cs)
  {
    var inList := "none";
    var newContents: seq<Node> := [];
    assert cs[0..] == cs;
    for k := 0 to |cs|
      invariant ListKind(inList)
      invariant ListFold(cs[k..], ListState(newContents, inList)) == ListFold(cs, ListState([], "none"))
    {
      var line := cs[k];
      ListFoldAt(cs, k, ListState(newContents, inList));
      ghost var next := ListStep(ListState(newContents, inList), line);
      if inList == Name(line) {
        var last := |newContents| - 1;
        if newContents == [] || !newContents[last].Env? {
          return Err(ListItemWithoutList);
        }
        var item := line.(name := "li");
        var open := newContents[last];
        newContents := newContents[..last] + [open.(contents := open.contents + [item])];
      } else if Name(line) == "uli" || Name(line) == "oli" {
        inList := Name(line);
        var listType := Name(line)[..2];
        newContents := newContents + [Env(listType, [], -1, [line.(name := "li")])];
      } else {
        newContents := newContents + [line];
      }
      assert next == Ok(ListState(newContents, inList));
    }
    assert cs[|cs|..] == [];
    r := Ok(newContents);
  }

  /** `Environment.group_list_items`: the scan, then the recursion. */
  method GroupListItemsTree(n: Node) returns (r: Result<Node>)
    ensures r == GroupListItems(n)
    decreases Size(n), 1
  {
    if !n.Env? {
      return Ok(n);
    }
    var level := ListScan(n.contents);
    if level.Err? {
      return Err(level.error);
    }
    var ys := level.value;
    SizeAllBound(ys);
    var bound := Size(n);
    var out: seq<Node> := [];
    PrependNil(GroupAll(ys, bound));
    assert ys[0..] == ys;
    for k := 0 to |ys|
      invariant GroupAll(ys, bound) == Prepend(out, GroupAll(ys[k..], bound))
    {
      GroupAllAt(ys, bound, k);
      var x := GroupListItemsTree(ys[k]);
      if x.Err? {
        return Err(x.error);
      }
      PrependAssoc(out, [x.value], GroupAll(ys[k + 1..], bound));
      out := out + [x.value];
    }
    assert ys[|ys|..] == [];
    assert out + [] == out;
    r := Ok(Env(n.name, n.additional, n.indent, out));
  }

  // ---------------------------------------------------------------------
  // process (lxl.py:387-399)

  /** Lines as the children of an environment. */
  function LineNodes(lines: seq<Line>): (r: seq<Node>)
    ensures |r| == |lines| && forall k :: 0 <= k < |lines| ==> r[k] == LineNode(lines[k])
  {
    if lines == [] then [] else [LineNode(lines[0])] + LineNodes(lines[1..])
  }

  /** `Environment.process` on an environment with the given header whose
      contents are `lines`: a `tikzpicture` is left alone; any other
      environment is taggified, merged (an empty environment anywhere in it
      fails), equified, split into paragraphs and has its list items
      grouped. Afterwards no child is a bare line or an ungrouped item. */
  function Process(name: string, additional: seq<string>, indent: int, lines: seq<Line>): (r: Result<Node>)
    requires LinesOk(lines)
    ensures r.Ok? ==> r.value.Env? && r.value.name == name && r.value.additional == additional
    ensures r.Ok? && name != "tikzpicture" ==> NoLines(r.value.contents) && NoItems(r.value.contents)
    ensures r.Ok? && name != "tikzpicture" ==> NoLinesDeep(r.value) && NoItemsDeep(r.value)
  {
    if name == "tikzpicture" then Ok(Env(name, additional, indent, LineNodes(lines)))
    else
      var cs :- TaggifyLines(lines);
      ProcessTree(Env(name, additional, indent, cs))
  }

  /** The passes after `taggify`, on the taggified environment `e`. */
  function ProcessTree(e: Node): (r: Result<Node>)
    requires e.Env? && e.name != "tikzpicture" && AllOk(e.contents)
    ensures r.Ok? ==> r.value.Env? && r.value.name == e.name && r.value.additional == e.additional
    ensures r.Ok? ==> NoLines(r.value.contents) && NoItems(r.value.contents)
    ensures r.Ok? ==> NoLinesDeep(r.value) && NoItemsDeep(r.value)
  {
    if !Mergeable(e) then Err(EmptyEnvironment)
    else
      var m := Merge(e);
      var q :- EquifyNode(m);
      var p := MakeParagraphs(q);
      assert NoLines(p.contents) by {
        assert forall k :: 0 <= k < |p.contents| ==> p.contents[k] in p.contents;
      }
      GroupListItems(p)
  }

  /** An environment with no lines at all fails in `merge`: this is the
      `void` of a section whose first line is a subheading. */
  lemma ProcessEmpty(name: string, additional: seq<string>, indent: int)
    requires name != "tikzpicture"
    ensures Process(name, additional, indent, []) == Err(EmptyEnvironment)
  {
    assert GroupBlocks([]) == [];
    assert TaggifyLines([]) == Ok([]);
  }

  /** `Environment.process`, the passes one after another. */
  method ProcessEnv(name: string, additional: seq<string>, indent: int, lines: seq<Line>) returns (r: Result<Node>)
    requires LinesOk(lines)
    ensures r == Process(name, additional, indent, lines)
  {
    if name == "tikzpicture" {
      return Ok(Env(name, additional, indent, LineNodes(lines)));
    }
    var cs := Taggify(lines);
    if cs.Err? {
      return Err(cs.error);
    }
    var e := Env(name, additional, indent, cs.value);
    if !Mergeable(e) {
      return Err(EmptyEnvironment);
    }
    var m := MergeNode(e);
    var q := EquifyTree(m);
    if q.Err? {
      return Err(q.error);
    }
    var p := MakeParagraphsTree(q.value);
    r := GroupListItemsTree(p);
  }
}
