/** `Line` (lxl.py:164-333): one line of the input as tokens with a parallel
    in-math flag per token, and the operations on a single line. */
module Lines {
  import opened Util
  import opened Tokens
  import opened Equations

  /** An element of `Line.chars`: a token, or, after `equify`, an equation. */
  datatype Item = Tok(s: Token) | Eqn(eq: Equation)

  /** `chars` and `char_map`. Lines are cut out of the token stream between
      line breaks, so their map entries are True/False only. */
  datatype Line = Line(chars: seq<Item>, marks: seq<bool>)

  /** Every line the converter builds is non-empty and has one flag per item. */
  predicate Valid(l: Line)
  {
    |l.chars| == |l.marks| && l.chars != []
  }

  predicate AllTok(items: seq<Item>)
  {
    forall i :: 0 <= i < |items| ==> items[i].Tok?
  }

  function TokItems(ts: seq<Token>): (items: seq<Item>)
    ensures |items| == |ts| && AllTok(items)
    ensures forall i :: 0 <= i < |ts| ==> items[i] == Tok(ts[i])
  {
    seq(|ts|, i requires 0 <= i < |ts| => Tok(ts[i]))
  }

  /** The in-math flags of a slice of the map that holds no line break. */
  function Flags(ms: seq<Mark>): (bs: seq<bool>)
    requires forall i :: 0 <= i < |ms| ==> ms[i].Flag?
    ensures |bs| == |ms| && forall i :: 0 <= i < |ms| ==> bs[i] == ms[i].inMath
  {
    seq(|ms|, i requires 0 <= i < |ms| && ms[i].Flag? => ms[i].inMath)
  }

  /** `''.join(items)` for items that are all tokens. */
  function Text(items: seq<Item>): string
    requires AllTok(items)
  {
    if items == [] then "" else items[0].s + Text(items[1..])
  }

  /** `x.isspace()` on a token: non-empty and whitespace throughout. An
      equation is never asked (indents are computed before `equify`). */
  predicate IsSpaceItem(x: Item)
  {
    x.Tok? && x.s != [] && forall i :: 0 <= i < |x.s| ==> IsSpaceChar(x.s[i])
  }

  /** Index of the first non-whitespace item, if any. */
  function FirstNonSpace(items: seq<Item>): (r: Option<nat>)
    ensures r.None? <==> forall i :: 0 <= i < |items| ==> IsSpaceItem(items[i])
    ensures r.Some? ==> r.value < |items| && !IsSpaceItem(items[r.value])
                        && forall i :: 0 <= i < r.value ==> IsSpaceItem(items[i])
  {
    if items == [] then None
    else if !IsSpaceItem(items[0]) then Some(0)
    else match FirstNonSpace(items[1..])
      case None => None
      case Some(k) => Some(k + 1)
  }

  /** `Line.indent` (lxl.py:173-178): `None` for a blank line. */
  function Indent(l: Line): Option<nat>
  {
    FirstNonSpace(l.chars)
  }

  /** `is_empty` (lxl.py:180-182). */
  predicate IsBlank(l: Line)
  {
    Indent(l).None?
  }

  /** `is_env` (lxl.py:184-195): the first non-blank item is a `#` outside
      mathematics. */
  predicate IsEnv(l: Line)
    requires Valid(l)
  {
    match Indent(l)
    case None => false
    case Some(i) => l.chars[i] == Tok("#") && !l.marks[i]
  }

  /** `is_star` (lxl.py:197-199). */
  predicate IsStar(l: Line, i: nat)
    requires Valid(l) && i < |l.chars|
  {
    l.chars[i] == Tok("*") && !l.marks[i]
  }

  /** `stars` (lxl.py:201-216): the length of the run of out-of-math `*`
      that starts the line (the first group of consecutive star indices
      when the smallest of them is 0, otherwise 0). */
  function Stars(l: Line): (n: nat)
    requires Valid(l)
    ensures n <= |l.chars|
    ensures forall k :: 0 <= k < n ==> IsStar(l, k)
    ensures n < |l.chars| ==> !IsStar(l, n)
  {
    StarsFrom(l, 0)
  }

  function StarsFrom(l: Line, k: nat): (n: nat)
    requires Valid(l) && k <= |l.chars|
    ensures k + n <= |l.chars|
    ensures forall j :: k <= j < k + n ==> IsStar(l, j)
    ensures k + n < |l.chars| ==> !IsStar(l, k + n)
    decreases |l.chars| - k
  {
    if k == |l.chars| || !IsStar(l, k) then 0 else 1 + StarsFrom(l, k + 1)
  }

  /** The tokens after which `__add__` never treats the joint as mathematics. */
  const Closers: seq<Item> := [Tok("\\)"), Tok("\\]"), Tok("$"), Tok("$$")]

  /** The flag `__add__` gives the space it inserts (lxl.py:318-324). */
  predicate JointInMath(a: Line, b: Line)
    requires Valid(a) && Valid(b)
  {
    a.marks[|a.marks| - 1] && b.marks[0] && a.chars[|a.chars| - 1] !in Closers
  }

  /** `Line.__add__` (lxl.py:308-328): the two lines joined by a space. */
  function Append(a: Line, b: Line): (r: Line)
    requires Valid(a) && Valid(b)
    ensures Valid(r) && |r.chars| == |a.chars| + 1 + |b.chars|
    ensures r.chars[..|a.chars|] == a.chars && r.chars[|a.chars|] == Tok(" ")
            && r.chars[|a.chars| + 1..] == b.chars
    ensures r.marks[..|a.marks|] == a.marks && r.marks[|a.marks| + 1..] == b.marks
    ensures r.marks[|a.marks|] <==> a.marks[|a.marks| - 1] && b.marks[0] && a.chars[|a.chars| - 1] !in Closers
  {
    Line(a.chars + [Tok(" ")] + b.chars, a.marks + [JointInMath(a, b)] + b.marks)
  }

  /** `Line.empty_line` (lxl.py:330-333). */
  function EmptyLine(): (l: Line)
    ensures Valid(l) && !IsBlank(l) && !l.marks[0]
  {
    assert !IsSpaceChar("parbreak"[0]);
    Line([Tok("parbreak")], [false])
  }

  /** The line cut out of the token stream from tokens `ts` and their slice
      `ms` of the map (lxl.py:783-785). */
  function FromTokens(ts: seq<Token>, ms: seq<Mark>): (l: Line)
    requires |ts| == |ms| && forall i :: 0 <= i < |ms| ==> ms[i].Flag?
  {
    Line(TokItems(ts), Flags(ms))
  }

  /** When line `a` ends in ordinary text, `__add__` flags the joining space
      exactly as the map would have flagged a space in place of the line
      break: in mathematics iff an odd number of delimiters precede it
      (`after` is the scan's state there). */
  lemma JointAfterText(a: seq<Token>, b: seq<Token>, mode: Mode, inEq: bool, after: bool)
    requires a != [] && b != [] && "\n" !in a && "\n" !in b
    requires !IsDelimiter(a[|a| - 1], mode) && Tok(a[|a| - 1]) !in Closers
    requires after == (inEq != OddDelimiters(a, mode))
    ensures |EqMapFrom(a, mode, inEq)| == |a| && |EqMapFrom(b, mode, after)| == |b|
    ensures forall i :: 0 <= i < |a| ==> EqMapFrom(a, mode, inEq)[i].Flag?
    ensures forall i :: 0 <= i < |b| ==> EqMapFrom(b, mode, after)[i].Flag?
    ensures JointInMath(FromTokens(a, EqMapFrom(a, mode, inEq)), FromTokens(b, EqMapFrom(b, mode, after)))
            == after
  {
    MapOfLine(a, mode, inEq);
    MapOfLine(b, mode, after);
    var n := |a| - 1;
    assert EqMapFrom(a, mode, inEq)[n] == Flag(after) by {
      EqMapAt(a, mode, inEq, n);
      assert a[..n] + [a[n]] == a;
      OddDelimitersAppend(a[..n], [a[n]], mode);
      assert [a[n]][1..] == [];
    }
    assert after ==> EqMapFrom(b, mode, after)[0].inMath by {
      EqMapAt(b, mode, after, 0);
    }
  }

  /** The map of a line holds flags only. */
  lemma MapOfLine(ts: seq<Token>, mode: Mode, inEq: bool)
    requires "\n" !in ts
    ensures |EqMapFrom(ts, mode, inEq)| == |ts|
    ensures forall i :: 0 <= i < |ts| ==> EqMapFrom(ts, mode, inEq)[i].Flag?
  {
    EqMapLength(ts, mode, inEq);
    forall i | 0 <= i < |ts|
      ensures EqMapFrom(ts, mode, inEq)[i].Flag?
    {
      EqMapAt(ts, mode, inEq, i);
    }
  }

  /** In Dollar mode a line that ends with an opening `$` is joined to the
      next by a space flagged as ordinary text, though the map puts that
      position inside mathematics. */
  lemma JointAfterOpeningDollar()
    ensures var a: seq<Token> := ["$"];
            var b: seq<Token> := ["x", "$"];
            OddDelimiters(a, Dollar)
            && EqMapFrom(a, Dollar, false) == [Flag(true)]
            && EqMapFrom(b, Dollar, true) == [Flag(true), Flag(true)]
            && !JointInMath(FromTokens(a, [Flag(true)]), FromTokens(b, [Flag(true), Flag(true)]))
  {
    var a: seq<Token> := ["$"];
    var b: seq<Token> := ["x", "$"];
    assert a[1..] == [];
    assert b[1..] == ["$"] && b[1..][1..] == [];
    assert FromTokens(a, [Flag(true)]).chars[0] == Tok("$");
  }

  // ---------------------------------------------------------------------
  // equify

  /** The state of the `equify` loop (lxl.py:239-262): the new chars and
      map, and whether an equation is open (it is then the last item). */
  datatype EqState = EqState(items: seq<Item>, marks: seq<bool>, inEq: bool)

  predicate OpenLast(st: EqState)
  {
    st.inEq ==> st.items != [] && st.items[|st.items| - 1].Eqn?
                && st.items[|st.items| - 1].eq.text != []
  }

  /** One iteration of the loop on the token `c` with flag `m`. */
  function EquifyStep(st: EqState, c: Token, m: bool): (r: Result<EqState>)
    requires OpenLast(st)
    ensures r.Ok? ==> OpenLast(r.value)
  {
    if !st.inEq then
      if m then Ok(EqState(st.items + [Eqn(Equation([c], None))], st.marks + [true], true))
      else Ok(EqState(st.items + [Tok(c)], st.marks + [false], false))
    else
      var n := |st.items| - 1;
      var e := st.items[n].eq;
      if m then Ok(EqState(st.items[..n] + [Eqn(Equation(e.text + [c], e.closing))], st.marks, true))
      else match Close(e.text)
        case Err(err) => Err(err)
        case Ok(cl) => Ok(EqState(st.items[..n] + [Eqn(Equation(e.text, Some(cl))), Tok(c)], st.marks + [false], false))
  }

  /** The loop over the remaining tokens `cs` and flags `ms`. */
  function EquifyFold(cs: seq<Item>, ms: seq<bool>, st: EqState): Result<EqState>
    requires AllTok(cs) && |cs| == |ms| && OpenLast(st)
    decreases |cs|
  {
    if cs == [] then Ok(st)
    else match EquifyStep(st, cs[0].s, ms[0])
      case Err(err) => Err(err)
      case Ok(next) => EquifyFold(cs[1..], ms[1..], next)
  }

  /** `Line.equify` (lxl.py:231-265) as a function of the line. */
  function Equify(l: Line): Result<Line>
    requires Valid(l) && AllTok(l.chars)
  {
    var st :- EquifyFold(l.chars, l.marks, EqState([], [], false));
    Ok(Line(st.items, st.marks))
  }

  /** `Line.equify`, the loop itself. */
  method EquifyLine(l: Line) returns (r: Result<Line>)
    requires Valid(l) && AllTok(l.chars)
    ensures r == Equify(l)
  {
    var items: seq<Item> := [];
    var marks: seq<bool> := [];
    var inEq := false;
    for x := 0 to |l.chars|
      invariant OpenLast(EqState(items, marks, inEq))
      invariant EquifyFold(l.chars[x..], l.marks[x..], EqState(items, marks, inEq))
                == EquifyFold(l.chars, l.marks, EqState([], [], false))
    {
      var c := l.chars[x].s;
      ghost var before := EqState(items, marks, inEq);
      assert l.chars[x..][1..] == l.chars[x + 1..] && l.marks[x..][1..] == l.marks[x + 1..];
      if !inEq {
        if l.marks[x] {
          items := items + [Eqn(Equation([c], None))];
          marks := marks + [true];
          inEq := true;
        } else {
          items := items + [Tok(c)];
          marks := marks + [false];
        }
      } else {
        var n := |items| - 1;
        var e := items[n].eq;
        if l.marks[x] {
          items := items[..n] + [Eqn(Equation(e.text + [c], e.closing))];
        } else {
          var cl := Close(e.text);
          if cl.Err? {
            return Err(cl.error);
          }
          items := items[..n] + [Eqn(Equation(e.text, Some(cl.value))), Tok(c)];
          marks := marks + [false];
          inEq := false;
        }
      }
      assert EquifyStep(before, c, l.marks[x]) == Ok(EqState(items, marks, inEq));
    }
    assert l.chars[|l.chars|..] == [];
    r := Ok(Line(items, marks));
  }

  /** The tokens an item stands for: an equation stands for its text. */
  function ItemTokens(x: Item): seq<Token>
  {
    match x
    case Tok(s) => [s]
    case Eqn(e) => e.text
  }

  /** The flags of those tokens: every token of an equation is in mathematics. */
  function ItemMarks(x: Item): seq<bool>
  {
    match x
    case Tok(_) => [false]
    case Eqn(e) => AllTrue(|e.text|)
  }

  function AllTrue(n: nat): (bs: seq<bool>)
    ensures |bs| == n && forall i :: 0 <= i < n ==> bs[i]
  {
    if n == 0 then [] else AllTrue(n - 1) + [true]
  }

  /** The tokens of a sequence of items, in order. */
  function Expand(items: seq<Item>): seq<Token>
  {
    if items == [] then [] else ItemTokens(items[0]) + Expand(items[1..])
  }

  /** The flags of the tokens of a sequence of items, in order. */
  function ExpandMarks(items: seq<Item>): seq<bool>
  {
    if items == [] then [] else ItemMarks(items[0]) + ExpandMarks(items[1..])
  }

  lemma Assoc<T>(a: seq<T>, b: seq<T>, c: seq<T>)
    ensures a + (b + c) == (a + b) + c
  {
  }

  lemma {:induction false} ExpandPush(items: seq<Item>, x: Item)
    ensures Expand(items + [x]) == Expand(items) + ItemTokens(x)
    ensures ExpandMarks(items + [x]) == ExpandMarks(items) + ItemMarks(x)
  {
    if items == [] {
      assert items + [x] == [x];
      assert [x][1..] == [];
    } else {
      assert (items + [x])[0] == items[0] && (items + [x])[1..] == items[1..] + [x];
      ExpandPush(items[1..], x);
      Assoc(ItemTokens(items[0]), Expand(items[1..]), ItemTokens(x));
      Assoc(ItemMarks(items[0]), ExpandMarks(items[1..]), ItemMarks(x));
    }
  }

  /** The new map `equify` builds: True exactly at the equations. */
  function EqnFlags(items: seq<Item>): (bs: seq<bool>)
    ensures |bs| == |items| && forall k :: 0 <= k < |items| ==> (bs[k] <==> items[k].Eqn?)
  {
    seq(|items|, k requires 0 <= k < |items| => items[k].Eqn?)
  }

  /** The tokens of items that are all tokens. */
  function Toks(items: seq<Item>): (ts: seq<Token>)
    requires AllTok(items)
    ensures |ts| == |items|
  {
    if items == [] then [] else [items[0].s] + Toks(items[1..])
  }

  /** An item `equify` is done with: a token, or an equation that `close`
      has closed. */
  predicate Settled(x: Item)
  {
    x.Tok? || (x.eq.text != [] && Close(x.eq.text).Ok? && x.eq.closing == Some(Close(x.eq.text).value))
  }

  predicate IsOpen(x: Item)
  {
    x.Eqn? && x.eq.text != [] && x.eq.closing.None?
  }

  /** No two equations are adjacent. */
  predicate Apart(items: seq<Item>)
  {
    forall k :: 0 <= k < |items| - 1 ==> !(items[k].Eqn? && items[k + 1].Eqn?)
  }

  /** What holds of the loop state after every iteration: the map flags the
      equations, an equation is open exactly when the last item is one, and
      every item before the last is settled. */
  predicate Shape(st: EqState)
  {
    && st.marks == EqnFlags(st.items)
    && (st.inEq ==> st.items != [] && IsOpen(st.items[|st.items| - 1]))
    && (!st.inEq ==> st.items == [] || st.items[|st.items| - 1].Tok?)
    && (forall k :: 0 <= k < |st.items| - 1 ==> Settled(st.items[k]))
    && Apart(st.items)
  }

  lemma StepPush(st: EqState, x: Item, inEq: bool)
    requires Shape(st) && !st.inEq
    requires if inEq then IsOpen(x) else x.Tok?
    ensures Shape(EqState(st.items + [x], st.marks + [x.Eqn?], inEq))
  {
    var items := st.items + [x];
    assert EqnFlags(items) == st.marks + [x.Eqn?];
    forall k | 0 <= k < |items| - 1
      ensures Settled(items[k])
    {
      assert items[k] == st.items[k];
    }
    forall k | 0 <= k < |items| - 1
      ensures !(items[k].Eqn? && items[k + 1].Eqn?)
    {
      if k < |st.items| - 1 {
        assert items[k] == st.items[k] && items[k + 1] == st.items[k + 1];
      }
    }
  }

  lemma StepExtend(st: EqState, c: Token)
    requires Shape(st) && st.inEq
    ensures var n := |st.items| - 1;
            var e := st.items[n].eq;
            Shape(EqState(st.items[..n] + [Eqn(Equation(e.text + [c], e.closing))], st.marks, true))
  {
    var n := |st.items| - 1;
    var e := st.items[n].eq;
    var items := st.items[..n] + [Eqn(Equation(e.text + [c], e.closing))];
    assert EqnFlags(items) == EqnFlags(st.items);
    forall k | 0 <= k < |items| - 1
      ensures Settled(items[k]) && !(items[k].Eqn? && items[k + 1].Eqn?)
    {
      assert items[k] == st.items[k];
      assert items[k + 1].Eqn? == st.items[k + 1].Eqn?;
    }
  }

  lemma StepClose(st: EqState, c: Token, cl: Closing)
    requires Shape(st) && st.inEq
    requires Close(st.items[|st.items| - 1].eq.text) == Ok(cl)
    ensures var n := |st.items| - 1;
            var e := st.items[n].eq;
            Shape(EqState(st.items[..n] + [Eqn(Equation(e.text, Some(cl))), Tok(c)], st.marks + [false], false))
  {
    var n := |st.items| - 1;
    var e := st.items[n].eq;
    var items := st.items[..n] + [Eqn(Equation(e.text, Some(cl))), Tok(c)];
    assert EqnFlags(items) == st.marks + [false];
    forall k | 0 <= k < |items| - 1
      ensures Settled(items[k]) && !(items[k].Eqn? && items[k + 1].Eqn?)
    {
      if k < n {
        assert items[k] == st.items[k];
        assert items[k + 1].Eqn? == st.items[k + 1].Eqn?;
      }
    }
  }

  lemma EquifyStepShape(st: EqState, c: Token, m: bool)
    requires Shape(st) && EquifyStep(st, c, m).Ok?
    ensures Shape(EquifyStep(st, c, m).value)
  {
    if !st.inEq {
      StepPush(st, if m then Eqn(Equation([c], None)) else Tok(c), m);
    } else if m {
      StepExtend(st, c);
    } else {
      StepClose(st, c, Close(st.items[|st.items| - 1].eq.text).value);
    }
  }

  /** One step accounts for one more token and its flag. */
  lemma EquifyStepExpand(st: EqState, c: Token, m: bool)
    requires OpenLast(st) && EquifyStep(st, c, m).Ok?
    ensures Expand(EquifyStep(st, c, m).value.items) == Expand(st.items) + [c]
    ensures ExpandMarks(EquifyStep(st, c, m).value.items) == ExpandMarks(st.items) + [m]
  {
    if !st.inEq {
      ExpandPush(st.items, if m then Eqn(Equation([c], None)) else Tok(c));
      assert AllTrue(1) == [true];
    } else if m {
      var n := |st.items| - 1;
      var e := st.items[n].eq;
      var pre := st.items[..n];
      assert st.items == pre + [st.items[n]];
      ExpandPush(pre, st.items[n]);
      ExpandPush(pre, Eqn(Equation(e.text + [c], e.closing)));
    } else {
      StepExpandClose(st, c);
    }
  }

  lemma StepExpandClose(st: EqState, c: Token)
    requires OpenLast(st) && st.inEq && EquifyStep(st, c, false).Ok?
    ensures Expand(EquifyStep(st, c, false).value.items) == Expand(st.items) + [c]
    ensures ExpandMarks(EquifyStep(st, c, false).value.items) == ExpandMarks(st.items) + [false]
  {
    var n := |st.items| - 1;
    var e := st.items[n].eq;
    var pre := st.items[..n];
    var x := Eqn(Equation(e.text, Some(Close(e.text).value)));
    assert EquifyStep(st, c, false).value.items == pre + [x] + [Tok(c)];
    assert st.items == pre + [st.items[n]];
    ExpandPush(pre, st.items[n]);
    ExpandPush(pre, x);
    ExpandPush(pre + [x], Tok(c));
  }

  lemma {:induction false} EquifyFoldShape(cs: seq<Item>, ms: seq<bool>, st: EqState)
    requires AllTok(cs) && |cs| == |ms| && Shape(st) && EquifyFold(cs, ms, st).Ok?
    ensures Shape(EquifyFold(cs, ms, st).value)
    decreases |cs|
  {
    if cs != [] {
      EquifyStepShape(st, cs[0].s, ms[0]);
      EquifyFoldShape(cs[1..], ms[1..], EquifyStep(st, cs[0].s, ms[0]).value);
    }
  }

  lemma {:induction false} EquifyFoldExpand(cs: seq<Item>, ms: seq<bool>, st: EqState)
    requires AllTok(cs) && |cs| == |ms| && OpenLast(st) && EquifyFold(cs, ms, st).Ok?
    ensures Expand(EquifyFold(cs, ms, st).value.items) == Expand(st.items) + Toks(cs)
    ensures ExpandMarks(EquifyFold(cs, ms, st).value.items) == ExpandMarks(st.items) + ms
    decreases |cs|
  {
    if cs == [] {
      assert Toks(cs) == [];
    } else {
      var next := EquifyStep(st, cs[0].s, ms[0]).value;
      var r := EquifyFold(cs, ms, st).value;
      assert r == EquifyFold(cs[1..], ms[1..], next).value;
      EquifyStepExpand(st, cs[0].s, ms[0]);
      EquifyFoldExpand(cs[1..], ms[1..], next);
      Regroup(Expand(st.items), cs[0].s, Toks(cs[1..]), Toks(cs));
      Regroup(ExpandMarks(st.items), ms[0], ms[1..], ms);
    }
  }

  lemma Regroup<T>(a: seq<T>, x: T, b: seq<T>, c: seq<T>)
    requires c == [x] + b
    ensures a + [x] + b == a + c
  {
  }

  /** After `equify`: chars and map have equal lengths, the map flags exactly
      the equations, no two equations are adjacent, and expanding every
      equation into its text gives back the tokens and their flags, so each
      equation is one maximal run of in-math tokens, in order. Every item but
      the last is a token or an equation closed by `close`; the last item is
      an equation left open exactly when the line ends in mathematics. */
  lemma EquifyProperties(l: Line)
    requires Valid(l) && AllTok(l.chars) && Equify(l).Ok?
    ensures var r := Equify(l).value;
      && Valid(r)
      && (forall k :: 0 <= k < |r.chars| ==> (r.marks[k] <==> r.chars[k].Eqn?))
      && Apart(r.chars)
      && Expand(r.chars) == Toks(l.chars)
      && ExpandMarks(r.chars) == l.marks
      && (forall k :: 0 <= k < |r.chars| - 1 ==> Settled(r.chars[k]))
      && (Settled(r.chars[|r.chars| - 1]) <==> !l.marks[|l.marks| - 1])
      && (IsOpen(r.chars[|r.chars| - 1]) <==> l.marks[|l.marks| - 1])
  {
    var init := EqState([], [], false);
    assert Shape(init);
    EquifyFoldShape(l.chars, l.marks, init);
    EquifyFoldExpand(l.chars, l.marks, init);
    var st := EquifyFold(l.chars, l.marks, init).value;
    assert Expand(st.items) == Toks(l.chars) && ExpandMarks(st.items) == l.marks by {
      assert [] + Toks(l.chars) == Toks(l.chars) && [] + l.marks == l.marks;
    }
    assert Equify(l).value == Line(st.items, st.marks);
    LastItem(st, l.marks);
  }

  /** The last item of the final state is open exactly when the last token
      is in mathematics. */
  lemma LastItem(st: EqState, ms: seq<bool>)
    requires Shape(st) && ExpandMarks(st.items) == ms && ms != []
    ensures st.items != []
    ensures Settled(st.items[|st.items| - 1]) <==> !ms[|ms| - 1]
    ensures IsOpen(st.items[|st.items| - 1]) <==> ms[|ms| - 1]
  {
    assert st.items != [];
    var n := |st.items| - 1;
    var x := st.items[n];
    var b := ItemMarks(x);
    assert ms == ExpandMarks(st.items[..n]) + b by {
      ExpandPush(st.items[..n], x);
      assert st.items[..n] + [x] == st.items;
    }
    if x.Tok? {
      assert b == [false];
    } else {
      assert st.inEq;
      assert IsOpen(x) && !Settled(x);
      assert b == AllTrue(|x.eq.text|) && b != [];
    }
    assert ms[|ms| - 1] == b[|b| - 1];
  }
}
