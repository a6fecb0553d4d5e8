/** The environment tree (lxl.py:136-544): `Line`s nested in `Environment`s
    by `taggify`, then rewritten by `merge`, `equify`, `make_paragraphs` and
    `group_list_items`. The source rewrites `contents` lists in place; no node
    is ever reachable from two parents, so the tree is modelled as a value and
    each pass as a method with the source's loops that returns the new tree,
    proved equal to a function that states the pass. */
module Tree {
  import opened Util
  import opened Tokens
  import opened Equations
  import opened Lines

  /** `Line`, `Environment` and `Paragraph`. An environment keeps what
      `Environment.__init__` parsed out of its header line, not the line. */
  datatype Node =
    | LineNode(line: Line)
    | Env(name: string, additional: seq<string>, indent: int, contents: seq<Node>)
    | Para(chars: seq<Item>)

  /** The `name` attribute: `''` for a line, `'p'` for a paragraph. */
  function Name(n: Node): string
  {
    match n
    case LineNode(_) => ""
    case Env(name, _, _, _) => name
    case Para(_) => "p"
  }

  /** A line as `taggify` and `merge` meet it: well formed, tokens only. */
  predicate LineOk(l: Line)
  {
    Valid(l) && AllTok(l.chars)
  }

  predicate LinesOk(lines: seq<Line>)
  {
    forall k :: 0 <= k < |lines| ==> LineOk(lines[k])
  }

  /** Every line anywhere in the tree is a token line. */
  predicate TreeOk(n: Node)
  {
    match n
    case LineNode(l) => LineOk(l)
    case Env(_, _, _, cs) => forall k :: 0 <= k < |cs| ==> TreeOk(cs[k])
    case Para(_) => true
  }

  predicate AllOk(ns: seq<Node>)
  {
    forall k :: 0 <= k < |ns| ==> TreeOk(ns[k])
  }

  // ---------------------------------------------------------------------
  // envify (lxl.py:218-229) and Environment.__init__ (lxl.py:356-385)

  /** `''.join(self.chars[i+2:])`: the header after `#` and the item that
      follows it. */
  function HeaderArgs(l: Line): string
    requires LineOk(l) && IsEnv(l)
  {
    var i := Indent(l).value;
    if i + 2 <= |l.chars| then Text(l.chars[i + 2..]) else ""
  }

  /** `'# ' + s` always splits into `'#'` followed by the words of `s`: the
      `assert instruction[0] == '#'` of lxl.py:376 never fails. */
  lemma SplitWordsHash(s: string)
    ensures SplitWords("# " + s) == ["#"] + SplitWords(s)
  {
    var t := "# " + s;
    assert !IsSpaceChar(t[0]) && IsSpaceChar(t[1]);
    assert WordLength(t) == 1;
    assert t[..1] == "#";
    assert t[1..] == " " + s;
    assert (" " + s)[1..] == s;
  }

  /** `Line.envify` on an environment line: the environment named by the
      first word after the `#`, with the other words as its `additional`
      and the line's indent; a header with no word fails at `instruction[1]`. */
  function Envify(l: Line): (r: Result<Node>)
    requires LineOk(l) && IsEnv(l)
    ensures r.Ok? <==> SplitWords(HeaderArgs(l)) != []
    ensures r.Ok? ==> r.value.Env? && r.value.contents == [] && r.value.indent == Indent(l).value
                      && [r.value.name] + r.value.additional == SplitWords(HeaderArgs(l))
  {
    var words := SplitWords(HeaderArgs(l));
    var instruction := SplitWords("# " + HeaderArgs(l));
    SplitWordsHash(HeaderArgs(l));
    assert instruction[1..] == words;
    if |instruction| < 2 then Err(EnvironmentWithoutName)
    else
      assert [instruction[1]] + instruction[2..] == words;
      Ok(Env(instruction[1], instruction[2..], Indent(l).value, []))
  }

  // ---------------------------------------------------------------------
  // Environment.taggify (lxl.py:402-451)

  /** How one pass of `taggify` groups the lines of an environment: a line
      left as it is, or an environment line with the lines it receives. */
  datatype Block = Plain(line: Line) | Opened(header: Line, body: seq<Line>)

  function BlockLines(b: Block): seq<Line>
  {
    match b
    case Plain(l) => [l]
    case Opened(h, body) => [h] + body
  }

  /** The lines of the blocks, in order. */
  function Unfold(blocks: seq<Block>): seq<Line>
  {
    if blocks == [] then [] else BlockLines(blocks[0]) + Unfold(blocks[1..])
  }

  predicate IsHeader(h: Line)
  {
    LineOk(h) && IsEnv(h)
  }

  /** A line an open environment with header `h` takes: blank, or indented
      further than the header. */
  predicate Inside(l: Line, h: Line)
    requires IsHeader(h)
  {
    IsBlank(l) || Indent(l).value > Indent(h).value
  }

  predicate WellFormed(b: Block)
  {
    match b
    case Plain(l) => LineOk(l) && !IsEnv(l)
    case Opened(h, body) => IsHeader(h) && LinesOk(body)
                            && forall j :: 0 <= j < |body| ==> Inside(body[j], h)
  }

  /** The grouping rules: plain lines are not environment lines, an
      environment takes only blank or further-indented lines, and the block
      after an environment starts with a line that is neither. */
  predicate Grouped(blocks: seq<Block>)
  {
    && (forall k :: 0 <= k < |blocks| ==> WellFormed(blocks[k]))
    && (forall k :: 0 <= k < |blocks| - 1 && blocks[k].Opened? ==>
          !Inside(BlockLines(blocks[k + 1])[0], blocks[k].header))
  }

  predicate OpenAtEnd(blocks: seq<Block>)
  {
    blocks != [] && blocks[|blocks| - 1].Opened?
  }

  /** One iteration of the `taggify` loop on `line`. */
  function BlockStep(blocks: seq<Block>, l: Line): seq<Block>
    requires Grouped(blocks) && LineOk(l)
  {
    var n := |blocks|;
    if OpenAtEnd(blocks) && Inside(l, blocks[n - 1].header) then
      blocks[..n - 1] + [Opened(blocks[n - 1].header, blocks[n - 1].body + [l])]
    else if IsEnv(l) then blocks + [Opened(l, [])]
    else blocks + [Plain(l)]
  }

  lemma BlockStepExtend(blocks: seq<Block>, l: Line)
    requires Grouped(blocks) && LineOk(l)
    requires OpenAtEnd(blocks) && Inside(l, blocks[|blocks| - 1].header)
    ensures Grouped(BlockStep(blocks, l))
  {
    var n := |blocks|;
    var r := BlockStep(blocks, l);
    assert WellFormed(r[n - 1]);
    forall k | 0 <= k < n - 1
      ensures r[k] == blocks[k]
    {
    }
  }

  lemma BlockStepPush(blocks: seq<Block>, l: Line)
    requires Grouped(blocks) && LineOk(l)
    requires !(OpenAtEnd(blocks) && Inside(l, blocks[|blocks| - 1].header))
    ensures Grouped(BlockStep(blocks, l))
  {
    var r := BlockStep(blocks, l);
    assert BlockLines(r[|blocks|])[0] == l;
    forall k | 0 <= k < |blocks|
      ensures r[k] == blocks[k]
    {
    }
  }

  lemma BlockStepUnfold(blocks: seq<Block>, l: Line)
    requires Grouped(blocks) && LineOk(l)
    ensures Unfold(BlockStep(blocks, l)) == Unfold(blocks) + [l]
  {
    var n := |blocks|;
    var r := BlockStep(blocks, l);
    if OpenAtEnd(blocks) && Inside(l, blocks[n - 1].header) {
      var b := blocks[n - 1];
      assert blocks[..n - 1] + [Opened(b.header, b.body)] == blocks;
      UnfoldExtend(blocks[..n - 1], b.header, b.body, l);
    } else {
      var b := if IsEnv(l) then Opened(l, []) else Plain(l);
      assert r == blocks + [b];
      UnfoldPush(blocks, b);
    }
  }

  lemma UnfoldExtend(pre: seq<Block>, h: Line, body: seq<Line>, l: Line)
    ensures Unfold(pre + [Opened(h, body + [l])]) == Unfold(pre + [Opened(h, body)]) + [l]
  {
    UnfoldPush(pre, Opened(h, body + [l]));
    UnfoldPush(pre, Opened(h, body));
    assert [h] + (body + [l]) == ([h] + body) + [l];
  }

  lemma BlockStepGrouped(blocks: seq<Block>, l: Line)
    requires Grouped(blocks) && LineOk(l)
    ensures Grouped(BlockStep(blocks, l)) && Unfold(BlockStep(blocks, l)) == Unfold(blocks) + [l]
  {
    if OpenAtEnd(blocks) && Inside(l, blocks[|blocks| - 1].header) {
      BlockStepExtend(blocks, l);
    } else {
      BlockStepPush(blocks, l);
    }
    BlockStepUnfold(blocks, l);
  }

  lemma {:induction false} UnfoldPush(blocks: seq<Block>, b: Block)
    ensures Unfold(blocks + [b]) == Unfold(blocks) + BlockLines(b)
  {
    if blocks == [] {
      assert [b][1..] == [];
    } else {
      assert (blocks + [b])[1..] == blocks[1..] + [b];
      UnfoldPush(blocks[1..], b);
    }
  }

  /** The loop over the remaining `lines`. */
  function BlockFold(lines: seq<Line>, blocks: seq<Block>): (r: seq<Block>)
    requires LinesOk(lines) && Grouped(blocks)
    ensures Grouped(r) && Unfold(r) == Unfold(blocks) + lines
  {
    if lines == [] then blocks
    else
      var next := BlockStep(blocks, lines[0]);
      BlockStepGrouped(blocks, lines[0]);
      LinesOkTail(lines);
      ConsAssoc(Unfold(blocks), lines);
      BlockFold(lines[1..], next)
  }

  lemma LinesOkTail(lines: seq<Line>)
    requires LinesOk(lines) && lines != []
    ensures LinesOk(lines[1..])
  {
    forall k | 0 <= k < |lines| - 1
      ensures LineOk(lines[1..][k])
    {
      assert lines[1..][k] == lines[k + 1];
    }
  }

  lemma ConsAssoc<T>(a: seq<T>, b: seq<T>)
    requires b != []
    ensures (a + [b[0]]) + b[1..] == a + b
  {
    assert [b[0]] + b[1..] == b;
  }

  /** The grouping `taggify` makes of an environment's lines: every line
      kept once and in order, each environment line at the head of the
      blank and further-indented lines that follow it, and the first line
      that is neither closing it. */
  function GroupBlocks(lines: seq<Line>): (blocks: seq<Block>)
    requires LinesOk(lines)
    ensures Unfold(blocks) == lines && Grouped(blocks)
    ensures Fits(blocks, |lines|)
  {
    var blocks := BlockFold(lines, []);
    UnfoldCovers(blocks);
    blocks
  }

  /** Each block holds at most all the lines. */
  lemma {:induction false} UnfoldCovers(blocks: seq<Block>)
    ensures forall k :: 0 <= k < |blocks| ==> |BlockLines(blocks[k])| <= |Unfold(blocks)|
  {
    if blocks != [] {
      UnfoldCovers(blocks[1..]);
      forall k | 0 < k < |blocks|
        ensures |BlockLines(blocks[k])| <= |Unfold(blocks)|
      {
        assert blocks[k] == blocks[1..][k - 1];
      }
    }
  }

  /** `Environment.taggify` on an environment whose contents are `lines`:
      the new contents, each environment taggified in turn. */
  function TaggifyLines(lines: seq<Line>): (r: Result<seq<Node>>)
    requires LinesOk(lines)
    ensures r.Ok? ==> AllOk(r.value) && |r.value| == |GroupBlocks(lines)|
    decreases |lines|, 3
  {
    TaggifyBlocks(GroupBlocks(lines), |lines|)
  }

  /** One node per block of the grouping: a plain line is kept as it is, and
      a header becomes the environment `envify` makes of it. */
  lemma TaggifyLinesShape(lines: seq<Line>)
    requires LinesOk(lines)
    ensures TaggifyLines(lines).Ok? ==>
              forall k :: 0 <= k < |GroupBlocks(lines)| && GroupBlocks(lines)[k].Plain? ==>
                TaggifyLines(lines).value[k] == LineNode(GroupBlocks(lines)[k].line)
    ensures TaggifyLines(lines).Ok? ==>
              forall k :: 0 <= k < |GroupBlocks(lines)| && GroupBlocks(lines)[k].Opened? ==>
                var x := TaggifyLines(lines).value[k];
                x.Env? && Envify(GroupBlocks(lines)[k].header) == Ok(Env(x.name, x.additional, x.indent, []))
  {
    TaggifyBlocksShape(GroupBlocks(lines), |lines|);
  }

  lemma TaggifyBlocksShape(blocks: seq<Block>, bound: nat)
    requires Fits(blocks, bound)
    ensures TaggifyBlocks(blocks, bound).Ok? ==>
              forall k :: 0 <= k < |blocks| && blocks[k].Plain? ==>
                TaggifyBlocks(blocks, bound).value[k] == LineNode(blocks[k].line)
    ensures TaggifyBlocks(blocks, bound).Ok? ==>
              forall k :: 0 <= k < |blocks| && blocks[k].Opened? ==>
                var x := TaggifyBlocks(blocks, bound).value[k];
                x.Env? && Envify(blocks[k].header) == Ok(Env(x.name, x.additional, x.indent, []))
    decreases bound, 2
  {
    TaggifyBlocksEach(blocks, bound);
    forall k | 0 <= k < |blocks|
      ensures WellFormed(blocks[k]) && |BlockLines(blocks[k])| <= bound
    {
    }
    forall k | 0 <= k < |blocks|
      ensures TaggifyBlocks(blocks, bound).Ok? && blocks[k].Plain? ==>
                TaggifyBlocks(blocks, bound).value[k] == LineNode(blocks[k].line)
      ensures TaggifyBlocks(blocks, bound).Ok? && blocks[k].Opened? ==>
                var x := TaggifyBlocks(blocks, bound).value[k];
                x.Env? && Envify(blocks[k].header) == Ok(Env(x.name, x.additional, x.indent, []))
    {
      TaggifyBlockShape(blocks[k], bound);
    }
  }

  /** The node at position `k` is what block `k` becomes. */
  lemma {:induction false} TaggifyBlocksEach(blocks: seq<Block>, bound: nat)
    requires Fits(blocks, bound)
    ensures TaggifyBlocks(blocks, bound).Ok? <==> forall k :: 0 <= k < |blocks| ==> TaggifyBlock(blocks[k], bound).Ok?
    ensures TaggifyBlocks(blocks, bound).Ok? ==>
              forall k :: 0 <= k < |blocks| ==> TaggifyBlock(blocks[k], bound) == Ok(TaggifyBlocks(blocks, bound).value[k])
    decreases bound, 1, |blocks|, 1
  {
    if blocks != [] {
      FitsTail(blocks, bound);
      TaggifyBlocksEach(blocks[1..], bound);
      if TaggifyBlock(blocks[0], bound).Ok? && TaggifyBlocks(blocks[1..], bound).Err? {
        TaggifyBlocksRestErr(blocks, bound);
      } else if TaggifyBlock(blocks[0], bound).Ok? {
        TaggifyBlocksCons(blocks, bound);
      }
    }
  }

  /** A failing block after the first makes the blocks fail. */
  lemma TaggifyBlocksRestErr(blocks: seq<Block>, bound: nat)
    requires Fits(blocks, bound) && blocks != []
    requires TaggifyBlock(blocks[0], bound).Ok?
    requires Fits(blocks[1..], bound) && TaggifyBlocks(blocks[1..], bound).Err?
    requires exists j :: 0 <= j < |blocks| - 1 && TaggifyBlock(blocks[1..][j], bound).Err?
    ensures TaggifyBlocks(blocks, bound).Err?
    ensures exists k :: 0 <= k < |blocks| && TaggifyBlock(blocks[k], bound).Err?
    decreases bound, 1, |blocks|, 0
  {
    HeadTail(blocks);
    var j :| 0 <= j < |blocks| - 1 && TaggifyBlock(blocks[1..][j], bound).Err?;
    assert TaggifyBlock(blocks[j + 1], bound).Err?;
  }

  /** The blocks succeed when the first and the rest do, block by block. */
  lemma TaggifyBlocksCons(blocks: seq<Block>, bound: nat)
    requires Fits(blocks, bound) && blocks != []
    requires TaggifyBlock(blocks[0], bound).Ok?
    requires Fits(blocks[1..], bound) && TaggifyBlocks(blocks[1..], bound).Ok?
    requires forall k :: 0 <= k < |blocks| - 1 ==> TaggifyBlock(blocks[1..][k], bound) == Ok(TaggifyBlocks(blocks[1..], bound).value[k])
    ensures TaggifyBlocks(blocks, bound).Ok?
    ensures forall k :: 0 <= k < |blocks| ==> TaggifyBlock(blocks[k], bound) == Ok(TaggifyBlocks(blocks, bound).value[k])
    decreases bound, 1, |blocks|, 0
  {
    var first := TaggifyBlock(blocks[0], bound);
    var rest := TaggifyBlocks(blocks[1..], bound);
    var r := [first.value] + rest.value;
    assert TaggifyBlocks(blocks, bound) == Ok(r);
    forall k | 0 < k < |blocks|
      ensures TaggifyBlock(blocks[k], bound) == Ok(r[k])
    {
      assert blocks[k] == blocks[1..][k - 1] && r[k] == rest.value[k - 1];
    }
  }

  /** Every block is well formed and has at most `bound` lines. */
  predicate Fits(blocks: seq<Block>, bound: nat)
  {
    forall k :: 0 <= k < |blocks| ==> WellFormed(blocks[k]) && |BlockLines(blocks[k])| <= bound
  }

  lemma FitsTail(blocks: seq<Block>, bound: nat)
    requires Fits(blocks, bound) && blocks != []
    ensures Fits(blocks[1..], bound) && WellFormed(blocks[0]) && |BlockLines(blocks[0])| <= bound
  {
    assert forall k :: 0 <= k < |blocks| - 1 ==> blocks[1..][k] == blocks[k + 1];
  }

  function TaggifyBlocks(blocks: seq<Block>, bound: nat): (r: Result<seq<Node>>)
    requires Fits(blocks, bound)
    ensures r.Ok? ==> AllOk(r.value) && |r.value| == |blocks|
    decreases bound, 0, |blocks|
  {
    if blocks == [] then Ok([])
    else
      FitsTail(blocks, bound);
      var first :- TaggifyBlock(blocks[0], bound);
      var rest :- TaggifyBlocks(blocks[1..], bound);
      Ok([first] + rest)
  }

  function TaggifyBlock(b: Block, bound: nat): (r: Result<Node>)
    requires WellFormed(b) && |BlockLines(b)| <= bound
    ensures r.Ok? ==> TreeOk(r.value)
    ensures r.Ok? ==> (r.value.LineNode? <==> b.Plain?)
    decreases bound, 0, 0
  {
    match b
    case Plain(l) => Ok(LineNode(l))
    case Opened(h, body) =>
      var e :- Envify(h);
      var cs :- TaggifyLines(body);
      Ok(Env(e.name, e.additional, e.indent, cs))
  }

  /** A plain line stays a line; an environment line becomes the
      environment its header describes, holding its body taggified. */
  lemma TaggifyBlockShape(b: Block, bound: nat)
    requires WellFormed(b) && |BlockLines(b)| <= bound
    ensures b.Plain? ==> TaggifyBlock(b, bound) == Ok(LineNode(b.line))
    ensures b.Opened? ==> (TaggifyBlock(b, bound).Ok? <==> Envify(b.header).Ok? && TaggifyLines(b.body).Ok?)
    ensures TaggifyBlock(b, bound).Ok? && b.Opened? ==>
              TaggifyBlock(b, bound).value == Envify(b.header).value.(contents := TaggifyLines(b.body).value)
    decreases bound, 1, 0
  {
  }

  /** `Ok(out + rest)` for a successful `rest`, otherwise its failure. */
  function Prepend<T>(out: seq<T>, rest: Result<seq<T>>): Result<seq<T>>
  {
    match rest
    case Ok(v) => Ok(out + v)
    case Err(e) => Err(e)
  }

  /** The scan of `taggify` (lxl.py:425-449), with `open` standing for
      `open_environment` being set. */
  method ScanBlocks(lines: seq<Line>) returns (blocks: seq<Block>)
    requires LinesOk(lines)
    ensures blocks == GroupBlocks(lines)
  {
    blocks := [];
    var open := false;
    for x := 0 to |lines|
      invariant Grouped(blocks)
      invariant open == OpenAtEnd(blocks)
      invariant BlockFold(lines[x..], blocks) == GroupBlocks(lines)
    {
      BlockFoldAt(lines, x, blocks);
      blocks, open := ScanLine(blocks, open, lines[x]);
    }
  }

  /** One pass of the scan's loop body (lxl.py:428-447): extend the open
      environment, open a new one, or keep the line as it is. */
  method ScanLine(blocks: seq<Block>, open: bool, line: Line) returns (blocks': seq<Block>, open': bool)
    requires Grouped(blocks) && LineOk(line) && open == OpenAtEnd(blocks)
    ensures blocks' == BlockStep(blocks, line)
    ensures open' == OpenAtEnd(blocks')
  {
    var i := Indent(line);
    if open {
      var n := |blocks| - 1;
      var b := blocks[n];
      if i.None? || i.value > Indent(b.header).value {
        assert Inside(line, b.header);
        blocks', open' := blocks[..n] + [Opened(b.header, b.body + [line])], true;
      } else if IsEnv(line) {
        assert !Inside(line, b.header);
        blocks', open' := blocks + [Opened(line, [])], true;
      } else {
        assert !Inside(line, b.header);
        blocks', open' := blocks + [Plain(line)], false;
      }
    } else if i.None? || !IsEnv(line) {
      assert !IsEnv(line);
      blocks', open' := blocks + [Plain(line)], false;
    } else {
      blocks', open' := blocks + [Opened(line, [])], true;
    }
  }

  lemma BlockFoldAt(lines: seq<Line>, x: nat, blocks: seq<Block>)
    requires LinesOk(lines) && x < |lines| && Grouped(blocks)
    ensures LinesOk(lines[x..]) && LinesOk(lines[x + 1..])
    ensures Grouped(BlockStep(blocks, lines[x]))
    ensures BlockFold(lines[x..], blocks) == BlockFold(lines[x + 1..], BlockStep(blocks, lines[x]))
  {
    assert lines[x..][0] == lines[x] && lines[x..][1..] == lines[x + 1..];
    BlockStepGrouped(blocks, lines[x]);
  }

  /** `Environment.taggify`: the scan, then each new environment taggified.
      Every header is parsed after the scan rather than during it; `envify`
      can only fail with `EnvironmentWithoutName`, so the outcome is the same. */
  method Taggify(lines: seq<Line>) returns (r: Result<seq<Node>>)
    requires LinesOk(lines)
    ensures r == TaggifyLines(lines)
    decreases |lines|, 1
  {
    var blocks := ScanBlocks(lines);
    UnfoldCovers(blocks);
    assert Fits(blocks, |lines|);
    assert TaggifyLines(lines) == TaggifyBlocks(blocks, |lines|);
    var out: seq<Node> := [];
    PrependNil(TaggifyBlocks(blocks, |lines|));
    assert blocks[0..] == blocks;
    for k := 0 to |blocks|
      invariant Fits(blocks[k..], |lines|)
      invariant TaggifyBlocks(blocks, |lines|) == Prepend(out, TaggifyBlocks(blocks[k..], |lines|))
    {
      TaggifyBlocksAt(blocks, |lines|, k);
      var x := TaggifyOne(blocks[k], |lines|);
      if x.Err? {
        return Err(x.error);
      }
      PrependAssoc(out, [x.value], TaggifyBlocks(blocks[k + 1..], |lines|));
      out := out + [x.value];
    }
    assert blocks[|blocks|..] == [];
    assert out + [] == out;
    r := Ok(out);
  }

  /** The node a block becomes: the line itself, or the environment its
      header describes holding its taggified body. */
  method TaggifyOne(b: Block, bound: nat) returns (r: Result<Node>)
    requires WellFormed(b) && |BlockLines(b)| <= bound
    ensures r == TaggifyBlock(b, bound)
    decreases bound, 0
  {
    match b
    case Plain(l) =>
      r := Ok(LineNode(l));
    case Opened(h, body) =>
      var e := Envify(h);
      if e.Err? {
        return Err(e.error);
      }
      var cs := Taggify(body);
      if cs.Err? {
        return Err(cs.error);
      }
      r := Ok(Env(e.value.name, e.value.additional, e.value.indent, cs.value));
  }

  lemma TaggifyBlocksAt(blocks: seq<Block>, bound: nat, k: nat)
    requires k < |blocks| && Fits(blocks, bound)
    ensures Fits(blocks[k..], bound) && Fits(blocks[k + 1..], bound)
    ensures WellFormed(blocks[k]) && |BlockLines(blocks[k])| <= bound
    ensures TaggifyBlocks(blocks[k..], bound) ==
              match TaggifyBlock(blocks[k], bound)
              case Err(e) => Err(e)
              case Ok(x) => Prepend([x], TaggifyBlocks(blocks[k + 1..], bound))
  {
    assert blocks[k..][0] == blocks[k] && blocks[k..][1..] == blocks[k + 1..];
  }

  lemma PrependNil<T>(rest: Result<seq<T>>)
    ensures Prepend([], rest) == rest
  {
    if rest.Ok? {
      assert [] + rest.value == rest.value;
    }
  }

  lemma PrependAssoc<T>(a: seq<T>, b: seq<T>, rest: Result<seq<T>>)
    ensures Prepend(a, Prepend(b, rest)) == Prepend(a + b, rest)
  {
    if rest.Ok? {
      assert a + (b + rest.value) == (a + b) + rest.value;
    }
  }
}
