/** `Document` (lxl.py:774-910, 965-985): the converter's driver. It turns
    the text of the input file into tokens, the tokens into lines, runs the
    `@` commands, rewrites the list lines, and builds the main section. The
    stages are methods of a class whose fields they reassign, each proved
    equal to a function of the old state; the properties are proved about
    those functions. */
module Documents {
  import opened Util
  import opened Tokens
  import opened Lines
  import opened Tree
  import opened Sections
  import opened Render

  // ---------------------------------------------------------------------
  // The token streams

  /** `group_chars` at position `i`: one step of the scan. */
  lemma GroupCharsAt(s: string, i: nat)
    requires i < |s|
    ensures i + 1 < |s| && Merges(s[i], s[i + 1]) ==> GroupChars(s[i..]) == [[s[i], s[i + 1]]] + GroupChars(s[i + 2..])
    ensures !(i + 1 < |s| && Merges(s[i], s[i + 1])) ==> GroupChars(s[i..]) == [[s[i]]] + GroupChars(s[i + 1..])
  {
    var t := s[i..];
    assert t[0] == s[i];
    if i + 1 < |s| {
      assert t[1] == s[i + 1];
      assert t[2..] == s[i + 2..];
      assert t[..2] == [s[i], s[i + 1]];
    }
    assert t[..1] == [s[i]] && t[1..] == s[i + 1..];
  }

  /** `add_gaps` at position `i`. */
  lemma AddGapsAt(ts: seq<Token>, i: nat)
    requires i < |ts|
    ensures AddGaps(ts[i..]) ==
              if i + 1 < |ts| && ts[i] == "\n" && ts[i + 1] == "\n" then ["\n", " ", "\n"] + AddGaps(ts[i + 2..])
              else [ts[i]] + AddGaps(ts[i + 1..])
  {
    var t := ts[i..];
    assert t[0] == ts[i] && t[1..] == ts[i + 1..];
    if i + 1 < |ts| {
      assert t[1] == ts[i + 1] && t[2..] == ts[i + 2..];
    }
  }

  /** `get_eq_map` at position `i`. */
  lemma EqMapFromAt(ts: seq<Token>, i: nat, mode: Mode, inEq: bool)
    requires i < |ts|
    ensures EqMapFrom(ts[i..], mode, inEq)
            == [MarkOf(ts[i], mode, inEq)] + EqMapFrom(ts[i + 1..], mode, After(ts[i], mode, inEq))
  {
    assert ts[i..][0] == ts[i] && ts[i..][1..] == ts[i + 1..];
  }

  /** Lines are cut out of the token stream and the map at the line breaks
      (lxl.py:783-785); the two split alike because the map has `'\n'`
      exactly opposite the line breaks. */
  predicate Aligned(ts: seq<Token>, ms: seq<Mark>)
  {
    |ts| == |ms| && forall i :: 0 <= i < |ts| ==> (ts[i] == "\n" <==> ms[i] == Newline)
  }

  function LinesOf(ts: seq<Token>, ms: seq<Mark>): (lines: seq<Line>)
    requires Aligned(ts, ms)
    ensures LinesOk(lines) && |lines| == |SplitBy(ts, "\n")| == |SplitBy(ms, Newline)|
    ensures forall k :: 0 <= k < |lines| ==> Toks(lines[k].chars) == SplitBy(ts, "\n")[k]
    ensures forall k :: 0 <= k < |lines| ==>
              var g := SplitBy(ms, Newline)[k];
              |lines[k].marks| == |g| && forall i :: 0 <= i < |g| ==> g[i] == Flag(lines[k].marks[i])
  {
    var gt := SplitBy(ts, "\n");
    var gm := SplitBy(ms, Newline);
    SplitByAligned(ts, "\n", ms, Newline);
    assert forall j :: 0 <= j < |gt| ==> gt[j] in gt && gm[j] in gm;
    seq(|gt|, j requires 0 <= j < |gt| => TokLine(gt[j], gm[j]))
  }

  /** One line of `LinesOf`: its tokens, and their flags. */
  function TokLine(ts: seq<Token>, ms: seq<Mark>): (l: Line)
    requires |ts| == |ms| && ts != [] && Newline !in ms
    ensures LineOk(l) && Toks(l.chars) == ts
    ensures |l.marks| == |ms| && forall i :: 0 <= i < |ms| ==> ms[i] == Flag(l.marks[i])
  {
    assert forall i :: 0 <= i < |ms| ==> ms[i] in ms;
    TokItemsToks(ts);
    FromTokens(ts, ms)
  }

  lemma {:induction false} TokItemsToks(ts: seq<Token>)
    ensures Toks(TokItems(ts)) == ts
    decreases |ts|
  {
    if ts != [] {
      TokItemsToks(ts[1..]);
      assert TokItems(ts)[1..] == TokItems(ts[1..]);
    }
  }

  /** The tokens of each line. */
  function LineTokens(lines: seq<Line>): (r: seq<seq<Token>>)
    requires LinesOk(lines)
    ensures |r| == |lines|
  {
    seq(|lines|, k requires 0 <= k < |lines| => Toks(lines[k].chars))
  }

  /** The lines hold every token of the stream but the line breaks, in
      order. */
  lemma LinesCover(ts: seq<Token>, ms: seq<Mark>)
    requires Aligned(ts, ms)
    ensures Concat(LineTokens(LinesOf(ts, ms))) == Without(ts, "\n")
  {
    var lines := LinesOf(ts, ms);
    assert LineTokens(lines) == SplitBy(ts, "\n");
    SplitByConcat(ts, "\n");
  }

  // ---------------------------------------------------------------------
  // The @ commands (lxl.py:848-866)

  /** A command line: its first item is `@`. */
  predicate IsCommand(l: Line)
    requires Valid(l)
  {
    l.chars[0] == Tok("@")
  }

  predicate AllTokGroups(gs: seq<seq<Item>>)
  {
    forall j :: 0 <= j < |gs| ==> AllTok(gs[j])
  }

  lemma {:induction false} SplitTokens(items: seq<Item>)
    requires AllTok(items)
    ensures AllTokGroups(SplitBy(items, Tok(" ")))
    decreases |items|
  {
    if items != [] {
      assert AllTok(items[1..]);
      if items[0] == Tok(" ") {
        SplitTokens(items[1..]);
      } else {
        var k := RunLength(items, Tok(" "));
        assert AllTok(items[k..]) && AllTok(items[..k]);
        SplitTokens(items[k..]);
        var gs := SplitBy(items, Tok(" "));
        assert gs == [items[..k]] + SplitBy(items[k..], Tok(" "));
        assert forall j :: 0 < j < |gs| ==> gs[j] == SplitBy(items[k..], Tok(" "))[j - 1];
      }
    }
  }

  /** `[''.join(l) for l in gs]`. */
  function Texts(gs: seq<seq<Item>>): (r: seq<string>)
    requires AllTokGroups(gs)
    ensures |r| == |gs|
  {
    seq(|gs|, j requires 0 <= j < |gs| => Text(gs[j]))
  }

  /** A command line names a command: it has a second space-separated
      group. */
  predicate Named(l: Line)
    requires Valid(l)
  {
    |SplitBy(l.chars, Tok(" "))| >= 2
  }

  /** `''.join(line_text[1])`: the command's name. */
  function CommandName(l: Line): string
    requires LineOk(l) && Named(l)
  {
    SplitTokens(l.chars);
    Text(SplitBy(l.chars, Tok(" "))[1])
  }

  /** `' '.join(''.join(w) for w in line_text[2:])`: its arguments. */
  function CommandArgs(l: Line): string
    requires LineOk(l) && Named(l)
  {
    var words := SplitBy(l.chars, Tok(" "));
    SplitTokens(l.chars);
    Join(Texts(words[2..]), " ")
  }

  /** One turn of the loop of `run_commands`: a command line
      `@ name arguments...` stores its arguments under its name, after a
      space behind what the name already holds. A command line without a
      name raises. */
  function CommandStep(cmds: map<string, string>, l: Line): (r: Result<map<string, string>>)
    requires LineOk(l)
    ensures r.Err? <==> IsCommand(l) && !Named(l)
    ensures r.Err? ==> r.error == CommandWithoutName
    ensures r.Ok? && !IsCommand(l) ==> r.value == cmds
    ensures r.Ok? && IsCommand(l) ==> r.value.Keys == cmds.Keys + {CommandName(l)}
  {
    if !IsCommand(l) then Ok(cmds)
    else if !Named(l) then Err(CommandWithoutName)
    else
      var name := CommandName(l);
      var arguments := CommandArgs(l);
      Ok(cmds[name := if name in cmds then cmds[name] + " " + arguments else arguments])
  }

  function Commands(lines: seq<Line>, cmds: map<string, string>): (r: Result<map<string, string>>)
    requires LinesOk(lines)
    ensures r.Ok? ==> cmds.Keys <= r.value.Keys
    decreases |lines|
  {
    if lines == [] then Ok(cmds)
    else
      LinesOkTail(lines);
      var next :- CommandStep(cmds, lines[0]);
      Commands(lines[1..], next)
  }

  /** The arguments `l` adds under `name`: one entry when it is a command line named `name`. */
  function Own(l: Line, name: string): seq<string>
    requires LineOk(l)
  {
    if IsCommand(l) && Named(l) && CommandName(l) == name then [CommandArgs(l)] else []
  }

  /** The arguments of the command lines named `name`, in order. */
  function Args(lines: seq<Line>, name: string): seq<string>
    requires LinesOk(lines)
    decreases |lines|
  {
    if lines == [] then []
    else
      LinesOkTail(lines);
      Own(lines[0], name) + Args(lines[1..], name)
  }

  /** What `cmds` holds under `name`, as a list. */
  function Held(cmds: map<string, string>, name: string): seq<string>
  {
    if name in cmds then [cmds[name]] else []
  }

  /** `run_commands` from an empty table: a name is stored exactly when some
      command line names it, and it holds the arguments of all those lines,
      in order, joined by spaces. */
  lemma CommandsStored(lines: seq<Line>)
    requires LinesOk(lines) && Commands(lines, map[]).Ok?
    ensures forall name :: name in Commands(lines, map[]).value <==> Args(lines, name) != []
    ensures forall name :: name in Commands(lines, map[]).value ==>
              Commands(lines, map[]).value[name] == Join(Args(lines, name), " ")
  {
    forall name
      ensures name in Commands(lines, map[]).value <==> Args(lines, name) != []
      ensures name in Commands(lines, map[]).value ==>
                Commands(lines, map[]).value[name] == Join(Args(lines, name), " ")
    {
      CommandsStoredFrom(lines, map[], name);
      assert Held(map[], name) + Args(lines, name) == Args(lines, name);
    }
  }

  /** One step of the loop: what is held under `name` afterwards joins what
      was held before with the arguments the line adds. */
  lemma CommandStepHeld(cmds: map<string, string>, l: Line, name: string, rest: seq<string>)
    requires LineOk(l) && CommandStep(cmds, l).Ok?
    ensures name in CommandStep(cmds, l).value <==> Held(cmds, name) + Own(l, name) != []
    ensures Held(CommandStep(cmds, l).value, name) + rest == [] <==> Held(cmds, name) + Own(l, name) + rest == []
    ensures Join(Held(CommandStep(cmds, l).value, name) + rest, " ") == Join(Held(cmds, name) + Own(l, name) + rest, " ")
  {
    var next := CommandStep(cmds, l).value;
    var h, o := Held(cmds, name), Own(l, name);
    if o == [] {
      assert Held(next, name) == h by {
        assert !(IsCommand(l) && Named(l) && CommandName(l) == name);
      }
      assert h + o == h;
    } else if name in cmds {
      var a := CommandArgs(l);
      assert Held(next, name) == [cmds[name] + " " + a] by {
        assert next == cmds[name := cmds[name] + " " + a];
      }
      JoinMerge(cmds[name], a, rest, " ");
      assert h + o + rest == [cmds[name], a] + rest;
    } else {
      assert Held(next, name) == o by {
        assert next == cmds[name := CommandArgs(l)];
      }
      assert h + o == o;
    }
  }

  lemma {:induction false} CommandsStoredFrom(lines: seq<Line>, cmds: map<string, string>, name: string)
    requires LinesOk(lines) && Commands(lines, cmds).Ok?
    ensures name in Commands(lines, cmds).value <==> Held(cmds, name) + Args(lines, name) != []
    ensures name in Commands(lines, cmds).value ==>
              Commands(lines, cmds).value[name] == Join(Held(cmds, name) + Args(lines, name), " ")
    decreases |lines|
  {
    var h := Held(cmds, name);
    if lines == [] {
      assert h + [] == h;
      assert name in cmds ==> Join(h, " ") == cmds[name];
    } else {
      LinesOkTail(lines);
      var next := CommandStep(cmds, lines[0]).value;
      var rest := Args(lines[1..], name);
      assert Commands(lines, cmds) == Commands(lines[1..], next);
      assert h + Args(lines, name) == h + Own(lines[0], name) + rest by {
        assert Args(lines, name) == Own(lines[0], name) + rest;
      }
      CommandsStoredFrom(lines[1..], next, name);
      CommandStepHeld(cmds, lines[0], name, rest);
    }
  }

  /** Joining `c + sep + a` in front of `rest` is joining `c` and `a` there. */
  lemma JoinMerge(c: string, a: string, rest: seq<string>, sep: string)
    ensures Join([c + sep + a] + rest, sep) == Join([c, a] + rest, sep)
  {
    if rest == [] {
      assert [c, a][1..] == [a];
    } else {
      assert ([c + sep + a] + rest)[1..] == rest;
      assert ([c, a] + rest)[1..] == [a] + rest;
      assert ([a] + rest)[1..] == rest;
      assert c + sep + (a + sep + Join(rest, sep)) == (c + sep + a) + sep + Join(rest, sep);
    }
  }

  /** The lines `run_commands` keeps: all but the command lines, in order. */
  function Kept(lines: seq<Line>): (r: seq<Line>)
    requires LinesOk(lines)
    ensures LinesOk(r) && |r| <= |lines|
    ensures forall k :: 0 <= k < |r| ==> !IsCommand(r[k])
    decreases |lines|
  {
    if lines == [] then []
    else
      LinesOkTail(lines);
      (if IsCommand(lines[0]) then [] else [lines[0]]) + Kept(lines[1..])
  }

  /** Keeping distributes over concatenation, so the kept lines are the
      non-command lines in their order. */
  lemma {:induction false} KeptAppend(a: seq<Line>, b: seq<Line>)
    requires LinesOk(a) && LinesOk(b)
    ensures LinesOk(a + b) && Kept(a + b) == Kept(a) + Kept(b)
    decreases |a|
  {
    assert LinesOk(a + b);
    if a == [] {
      assert a + b == b;
    } else {
      assert (a + b)[0] == a[0] && (a + b)[1..] == a[1..] + b;
      LinesOkTail(a);
      KeptAppend(a[1..], b);
      var h := if IsCommand(a[0]) then [] else [a[0]];
      Assoc(h, Kept(a[1..]), Kept(b));
    }
  }

  /** Without command lines nothing is removed. */
  lemma {:induction false} KeptNoCommands(lines: seq<Line>)
    requires LinesOk(lines) && forall k :: 0 <= k < |lines| ==> !IsCommand(lines[k])
    ensures Kept(lines) == lines
    decreases |lines|
  {
    if lines != [] {
      LinesOkTail(lines);
      KeptNoCommands(lines[1..]);
      assert [lines[0]] + lines[1..] == lines;
    }
  }

  /** A command given twice keeps both argument lists, joined by a space. */
  lemma CommandRepeated(l1: Line, l2: Line, cmds: map<string, string>)
    requires LineOk(l1) && LineOk(l2) && IsCommand(l1) && IsCommand(l2) && Named(l1) && Named(l2)
    requires CommandName(l1) == CommandName(l2) && CommandName(l1) !in cmds
    ensures Commands([l1, l2], cmds)
            == Ok(cmds[CommandName(l1) := CommandArgs(l1) + " " + CommandArgs(l2)])
  {
    var name, a1, a2 := CommandName(l1), CommandArgs(l1), CommandArgs(l2);
    var lines := [l1, l2];
    assert lines[1..] == [l2] && [l2][1..] == [];
    assert CommandStep(cmds, l1) == Ok(cmds[name := a1]);
    assert CommandStep(cmds[name := a1], l2) == Ok(cmds[name := a1][name := a1 + " " + a2]);
    assert Commands([l2], cmds[name := a1]) == Commands([], cmds[name := a1][name := a1 + " " + a2]);
    assert Commands(lines, cmds) == Commands([l2], cmds[name := a1]);
    assert cmds[name := a1][name := a1 + " " + a2] == cmds[name := a1 + " " + a2];
  }

  /** `@title` without a space is a command without a name. */
  lemma CommandWithoutSpace()
    ensures var l := Line([Tok("@"), Tok("t")], [false, false]);
            LineOk(l) && Commands([l], map[]) == Err(CommandWithoutName)
  {
    var items := [Tok("@"), Tok("t")];
    var l := Line(items, [false, false]);
    assert items[1..] == [Tok("t")] && [Tok("t")][1..] == [];
    assert RunLength([Tok("t")], Tok(" ")) == 1;
    assert RunLength(items, Tok(" ")) == 2;
    assert items[..2] == items && items[2..] == [];
    assert SplitBy(items, Tok(" ")) == [items];
  }

  // ---------------------------------------------------------------------
  // List lines (lxl.py:868-893)

  function Falses(n: nat): (bs: seq<bool>)
    ensures |bs| == n && forall i :: 0 <= i < n ==> !bs[i]
  {
    seq(n, i => false)
  }

  /** The kind of list a line is an item of: its first non-blank item is a
      `-` (`uli`) or a `+` (`oli`) outside mathematics. */
  function ListMarker(l: Line): (r: Option<string>)
    requires Valid(l)
    ensures r.Some? ==> r.value == "uli" || r.value == "oli"
  {
    match Indent(l)
    case None => None
    case Some(i) =>
      if l.chars[i] == Tok("-") && !l.marks[i] then Some("uli")
      else if l.chars[i] == Tok("+") && !l.marks[i] then Some("oli")
      else None
  }

  /** One line of `create_list_environments`: an item line at indent `i`
      becomes the header `# uli` (or `# oli`) at indent `i` and the item's
      text with the marker and the item after it blanked. */
  function ListRewrite(l: Line): (r: seq<Line>)
    requires LineOk(l)
    ensures |r| == (if ListMarker(l).Some? then 2 else 1)
    ensures ListMarker(l).None? ==> r == [l]
  {
    match ListMarker(l)
    case None => [l]
    case Some(kind) =>
      var i := Indent(l).value;
      var from := if i + 2 <= |l.chars| then i + 2 else |l.chars|;
      [Line(l.chars[..i] + [Tok("#"), Tok(" "), Tok(kind)], Falses(i + 3)),
       Line(l.chars[..i] + [Tok(" "), Tok(" ")] + l.chars[from..], Falses(i + 2) + l.marks[from..])]
  }

  /** The header opens an environment at the item's indent, and the item's
      text is indented further, so the environment takes it. */
  lemma ListRewriteNests(l: Line)
    requires LineOk(l) && ListMarker(l).Some?
    ensures var r := ListRewrite(l);
            var i := Indent(l).value;
            && LinesOk(r)
            && IsHeader(r[0]) && Indent(r[0]) == Indent(l)
            && Inside(r[1], r[0])
            && r[1].chars[..i] == l.chars[..i]
            && (i + 2 <= |l.chars| ==> r[1].chars[i + 2..] == l.chars[i + 2..])
  {
    ListHeaderLine(l);
    ListItemLine(l);
  }

  /** The header line `# uli` of a rewritten item line. */
  lemma ListHeaderLine(l: Line)
    requires LineOk(l) && ListMarker(l).Some?
    ensures LineOk(ListRewrite(l)[0]) && IsHeader(ListRewrite(l)[0]) && Indent(ListRewrite(l)[0]) == Indent(l)
  {
    var i := Indent(l).value;
    ListHeaderShape(l);
    HeaderItems(l.chars[..i], ListMarker(l).value);
  }

  lemma ListHeaderShape(l: Line)
    requires LineOk(l) && ListMarker(l).Some?
    ensures var i := Indent(l).value;
            ListRewrite(l)[0] == Line(l.chars[..i] + [Tok("#"), Tok(" "), Tok(ListMarker(l).value)], Falses(i + 3))
  {
  }

  /** A `#` after a blank indent is the first non-blank item. */
  lemma HeaderItems(pre: seq<Item>, kind: string)
    requires forall k :: 0 <= k < |pre| ==> IsSpaceItem(pre[k])
    ensures var c := pre + [Tok("#"), Tok(" "), Tok(kind)];
            AllTok(c) && FirstNonSpace(c) == Some(|pre|) && c[|pre|] == Tok("#")
  {
    var c := pre + [Tok("#"), Tok(" "), Tok(kind)];
    assert forall k :: 0 <= k < |pre| ==> IsSpaceItem(c[k]);
    assert "#"[0] == '#' && !IsSpaceItem(Tok("#"));
    assert c[|pre|] == Tok("#");
  }

  /** The text line of a rewritten item line: the marker and the item after
      it are blanks, so the first non-blank item comes later. */
  lemma ListItemLine(l: Line)
    requires LineOk(l) && ListMarker(l).Some?
    ensures var i := Indent(l).value;
            var r1 := ListRewrite(l)[1];
            && LineOk(r1)
            && (IsBlank(r1) || Indent(r1).value > i)
            && r1.chars[..i] == l.chars[..i]
            && (i + 2 <= |l.chars| ==> r1.chars[i + 2..] == l.chars[i + 2..])
  {
    var i := Indent(l).value;
    var from := if i + 2 <= |l.chars| then i + 2 else |l.chars|;
    ListItemShape(l);
    BlankedMarker(l.chars[..i], l.chars[from..]);
    if i + 2 <= |l.chars| {
      assert ListRewrite(l)[1].chars[i + 2..] == l.chars[from..];
    }
  }

  /** Blanks put in place of a marker, after a blank indent, keep every
      item a token and push the first non-blank item past them. */
  lemma BlankedMarker(pre: seq<Item>, rest: seq<Item>)
    requires forall k :: 0 <= k < |pre| ==> IsSpaceItem(pre[k])
    requires AllTok(rest)
    ensures var c := pre + [Tok(" "), Tok(" ")] + rest;
            && AllTok(c) && c[..|pre|] == pre
            && (FirstNonSpace(c).None? || FirstNonSpace(c).value > |pre|)
  {
    var p := pre + [Tok(" "), Tok(" ")];
    assert " "[0] == ' ' && IsSpaceItem(Tok(" "));
    assert forall k :: 0 <= k < |p| ==> IsSpaceItem(p[k]);
    BlankPrefix(p, rest);
    assert forall k :: 0 <= k < |p + rest| ==> (p + rest)[k].Tok?;
    assert (p + rest)[..|pre|] == pre;
  }

  lemma ListItemShape(l: Line)
    requires LineOk(l) && ListMarker(l).Some?
    ensures var i := Indent(l).value;
            var from := if i + 2 <= |l.chars| then i + 2 else |l.chars|;
            ListRewrite(l)[1] == Line(l.chars[..i] + [Tok(" "), Tok(" ")] + l.chars[from..], Falses(i + 2) + l.marks[from..])
  {
  }

  /** Whatever follows a blank prefix, the first non-blank item lies past it. */
  lemma BlankPrefix(p: seq<Item>, rest: seq<Item>)
    requires forall k :: 0 <= k < |p| ==> IsSpaceItem(p[k])
    ensures FirstNonSpace(p + rest).None? || FirstNonSpace(p + rest).value >= |p|
  {
    var c := p + rest;
    assert forall k :: 0 <= k < |p| ==> c[k] == p[k];
  }

  function ListLines(lines: seq<Line>): (r: seq<Line>)
    requires LinesOk(lines)
    ensures LinesOk(r) && |r| >= |lines|
    decreases |lines|
  {
    if lines == [] then []
    else
      LinesOkTail(lines);
      ListRewriteOk(lines[0]);
      ListRewrite(lines[0]) + ListLines(lines[1..])
  }

  lemma ListRewriteOk(l: Line)
    requires LineOk(l)
    ensures LinesOk(ListRewrite(l))
  {
    if ListMarker(l).Some? {
      ListRewriteNests(l);
    }
  }

  /** Lines that are not list items pass unchanged. */
  lemma {:induction false} ListLinesNoItems(lines: seq<Line>)
    requires LinesOk(lines) && forall k :: 0 <= k < |lines| ==> ListMarker(lines[k]).None?
    ensures ListLines(lines) == lines
    decreases |lines|
  {
    if lines != [] {
      LinesOkTail(lines);
      ListLinesNoItems(lines[1..]);
      assert [lines[0]] + lines[1..] == lines;
    }
  }

  // ---------------------------------------------------------------------
  // The whole conversion

  /** `Document.__init__` after reading the file, as a function of the
      file's text. */
  function Convert(text: string, mode: Mode): (r: Result<Main>)
    ensures r.Ok? ==> Commands(SourceLines(text, mode), map[]).Ok?
                      && "title" in Commands(SourceLines(text, mode), map[]).value
                      && r.value.title == Commands(SourceLines(text, mode), map[]).value["title"]
  {
    var ls := SourceLines(text, mode);
    var cmds :- Commands(ls, map[]);
    var body := ListLines(Kept(ls));
    if "title" !in cmds then Err(MissingTitle)
    else MakeMain(body, cmds["title"])
  }

  /** The lines cut out of the text (lxl.py:780-785). */
  function SourceLines(text: string, mode: Mode): (ls: seq<Line>)
    ensures LinesOk(ls)
  {
    var ts := AddGaps(GroupChars(text));
    EqMapNewlines(ts, mode);
    LinesOf(ts, EqMap(ts, mode))
  }

  /** Text without any command line has no title, so it is refused. */
  lemma NoTitle(text: string, mode: Mode)
    requires forall k :: 0 <= k < |SourceLines(text, mode)| ==> !IsCommand(SourceLines(text, mode)[k])
    ensures Convert(text, mode) == Err(MissingTitle)
  {
    NoCommands(SourceLines(text, mode), map[]);
  }

  lemma {:induction false} NoCommands(lines: seq<Line>, cmds: map<string, string>)
    requires LinesOk(lines) && forall k :: 0 <= k < |lines| ==> !IsCommand(lines[k])
    ensures Commands(lines, cmds) == Ok(cmds)
    decreases |lines|
  {
    if lines != [] {
      LinesOkTail(lines);
      NoCommands(lines[1..], cmds);
    }
  }

  // ---------------------------------------------------------------------
  // The loops of the stages

  /** The loop of `group_chars`: `skip_next_char` is set after a merged
      pair, and the shifted text ends in a space, which merges with
      nothing. */
  method ScanGroupChars(s: string) returns (out: seq<Token>)
    ensures out == GroupChars(s)
  {
    out := [];
    var skip := 0;
    assert s[0..] == s;
    for i := 0 to |s|
      invariant skip == 0 || skip == 1
      invariant skip == 0 ==> out + GroupChars(s[i..]) == GroupChars(s)
      invariant skip == 1 ==> i < |s| && out + GroupChars(s[i + 1..]) == GroupChars(s)
    {
      var x := s[i];
      var y := if i + 1 < |s| then s[i + 1] else ' ';
      if skip == 0 {
        GroupCharsAt(s, i);
        assert !Merges(x, ' ');
        if (x == '\\' && y in "()[]$") || (x == '$' && y == '$') {
          Assoc(out, [[x, y]], GroupChars(s[i + 2..]));
          out := out + [[x, y]];
          skip := 1;
        } else {
          Assoc(out, [[x]], GroupChars(s[i + 1..]));
          out := out + [[x]];
        }
      } else {
        skip := 0;
      }
    }
    assert s[|s|..] == [];
    assert out + [] == out;
  }

  /** The loop of `add_gaps`. */
  method ScanAddGaps(ts: seq<Token>) returns (out: seq<Token>)
    ensures out == AddGaps(ts)
  {
    out := [];
    var skip := 0;
    assert ts[0..] == ts;
    for i := 0 to |ts|
      invariant skip == 0 || skip == 1
      invariant skip == 0 ==> out + AddGaps(ts[i..]) == AddGaps(ts)
      invariant skip == 1 ==> i < |ts| && out + AddGaps(ts[i + 1..]) == AddGaps(ts)
    {
      var x := ts[i];
      var y := if i + 1 < |ts| then ts[i + 1] else " ";
      if skip == 0 {
        AddGapsAt(ts, i);
        if x == "\n" && y == "\n" {
          Assoc(out, [x, " ", y], AddGaps(ts[i + 2..]));
          out := out + [x, " ", y];
          skip := 1;
        } else {
          Assoc(out, [x], AddGaps(ts[i + 1..]));
          out := out + [x];
        }
      } else {
        skip := 0;
      }
    }
    assert ts[|ts|..] == [];
    assert out + [] == out;
  }

  /** The loop of `get_eq_map`, toggling `in_eq` at each delimiter. */
  method ScanEqMap(ts: seq<Token>, mode: Mode) returns (eqMap: seq<Mark>)
    ensures eqMap == EqMap(ts, mode)
  {
    eqMap := [];
    var inEq := false;
    assert ts[0..] == ts;
    for i := 0 to |ts|
      invariant eqMap + EqMapFrom(ts[i..], mode, inEq) == EqMap(ts, mode)
    {
      var c := ts[i];
      EqMapFromAt(ts, i, mode, inEq);
      ghost var before := eqMap;
      ghost var was := inEq;
      if IsDelimiter(c, mode) {
        eqMap := eqMap + [Flag(true)];
        inEq := !inEq;
      } else if c == "\n" {
        eqMap := eqMap + [Newline];
      } else {
        eqMap := eqMap + [Flag(inEq)];
      }
      Assoc(before, [MarkOf(c, mode, was)], EqMapFrom(ts[i + 1..], mode, inEq));
    }
    assert ts[|ts|..] == [];
    assert eqMap + [] == eqMap;
  }

  /** The first loop of `run_commands`: the commands read, and the indices
      of the command lines. */
  method ScanCommands(ls: seq<Line>, cmds0: map<string, string>) returns (r: Result<map<string, string>>, remove: set<nat>)
    requires LinesOk(ls)
    ensures r == Commands(ls, cmds0)
    ensures r.Ok? ==> remove == set j | 0 <= j < |ls| && IsCommand(ls[j])
  {
    var cmds := cmds0;
    remove := {};
    assert ls[0..] == ls;
    for i := 0 to |ls|
      invariant LinesOk(ls[i..])
      invariant Commands(ls, cmds0) == Commands(ls[i..], cmds)
      invariant remove == set j | 0 <= j < i && IsCommand(ls[j])
    {
      LinesOkTail(ls[i..]);
      assert ls[i..][0] == ls[i] && ls[i..][1..] == ls[i + 1..];
      var step := CommandStep(cmds, ls[i]);
      if step.Err? {
        return Err(step.error), remove;
      }
      if IsCommand(ls[i]) {
        remove := remove + {i};
      }
      cmds := step.value;
    }
    assert ls[|ls|..] == [];
    r := Ok(cmds);
  }

  /** The comprehension of `run_commands` that drops the noted lines. */
  method DropLines(ls: seq<Line>, remove: set<nat>) returns (kept: seq<Line>)
    requires LinesOk(ls) && remove == set j | 0 <= j < |ls| && IsCommand(ls[j])
    ensures kept == Kept(ls)
  {
    kept := [];
    for k := 0 to |ls|
      invariant LinesOk(ls[..k]) && kept == Kept(ls[..k])
    {
      KeptAppend(ls[..k], [ls[k]]);
      assert ls[..k] + [ls[k]] == ls[..k + 1];
      assert [ls[k]][1..] == [];
      if k !in remove {
        kept := kept + [ls[k]];
      }
    }
    assert ls[..|ls|] == ls;
  }

  /** The loop of `create_list_environments`. */
  method ScanListLines(ls: seq<Line>) returns (out: seq<Line>)
    requires LinesOk(ls)
    ensures out == ListLines(ls)
  {
    out := [];
    assert ls[0..] == ls;
    for k := 0 to |ls|
      invariant LinesOk(ls[k..])
      invariant out + ListLines(ls[k..]) == ListLines(ls)
    {
      LinesOkTail(ls[k..]);
      assert ls[k..][0] == ls[k] && ls[k..][1..] == ls[k + 1..];
      var line := ls[k];
      var rewritten: seq<Line>;
      var i := Indent(line);
      if i.Some? && line.chars[i.value] == Tok("-") && !line.marks[i.value] {
        rewritten := ListItemLines(line, i.value, "uli");
      } else if i.Some? && line.chars[i.value] == Tok("+") && !line.marks[i.value] {
        rewritten := ListItemLines(line, i.value, "oli");
      } else {
        rewritten := [line];
      }
      Assoc(out, rewritten, ListLines(ls[k + 1..]));
      out := out + rewritten;
    }
    assert ls[|ls|..] == [];
    assert out + [] == out;
  }

  /** The two lines that replace an item line at indent `i` of kind
      `kind`. */
  method ListItemLines(line: Line, i: nat, kind: string) returns (r: seq<Line>)
    requires LineOk(line) && Indent(line) == Some(i)
    requires ListMarker(line) == Some(kind)
    ensures r == ListRewrite(line)
  {
    var from := if i + 2 <= |line.chars| then i + 2 else |line.chars|;
    var first := Line(line.chars[0..i] + [Tok("#")] + [Tok(" ")] + [Tok(kind)], Falses(i + 3));
    var second := Line(line.chars[0..i] + [Tok(" ")] + [Tok(" ")] + line.chars[from..],
                       Falses(i + 2) + line.marks[from..]);
    assert line.chars[0..i] + [Tok("#")] + [Tok(" ")] + [Tok(kind)] == line.chars[..i] + [Tok("#"), Tok(" "), Tok(kind)];
    assert line.chars[0..i] + [Tok(" ")] + [Tok(" ")] + line.chars[from..] == line.chars[..i] + [Tok(" "), Tok(" ")] + line.chars[from..];
    r := [first, second];
  }

  // ---------------------------------------------------------------------
  // The document object

  /** `meta_tags` (lxl.py:9). */
  const MetaTags: seq<string> := ["title", "author", "description"]

  class Document {
    /** `mode`: which delimiters mark mathematics. */
    var mode: Mode
    /** The text read from the input file. */
    var text: string
    /** `data`: the token stream. */
    var data: seq<Token>
    /** `lines`. */
    var lines: seq<Line>
    /** The attributes `run_commands` sets, by name. */
    var commands: map<string, string>

    constructor (text: string, mode: Mode)
      ensures this.text == text && this.mode == mode
      ensures data == [] && lines == [] && commands == map[]
    {
      this.text := text;
      this.mode := mode;
      data := [];
      lines := [];
      commands := map[];
    }

    /** `group_chars` (lxl.py:810-827), run on the text. */
    method GroupChars()
      modifies this
      ensures data == Tokens.GroupChars(text)
      ensures text == old(text) && mode == old(mode) && lines == old(lines) && commands == old(commands)
    {
      data := ScanGroupChars(text);
    }

    /** `add_gaps` (lxl.py:794-808). */
    method AddGaps()
      modifies this
      ensures data == Tokens.AddGaps(old(data))
      ensures text == old(text) && mode == old(mode) && lines == old(lines) && commands == old(commands)
    {
      data := ScanAddGaps(data);
    }

    /** `get_eq_map` (lxl.py:829-845). */
    method GetEqMap() returns (eqMap: seq<Mark>)
      ensures eqMap == EqMap(data, mode)
    {
      eqMap := ScanEqMap(data, mode);
    }

    /** `run_commands` (lxl.py:848-866). */
    method RunCommands() returns (r: Result<()>)
      modifies this
      requires LinesOk(lines)
      ensures r.Ok? <==> Commands(old(lines), old(commands)).Ok?
      ensures r.Err? ==> r.error == Commands(old(lines), old(commands)).error
      ensures r.Ok? ==> commands == Commands(old(lines), old(commands)).value && lines == Kept(old(lines))
      ensures text == old(text) && mode == old(mode) && data == old(data)
    {
      var cmds, remove := ScanCommands(lines, commands);
      if cmds.Err? {
        return Err(cmds.error);
      }
      commands := cmds.value;
      lines := DropLines(lines, remove);
      r := Ok(());
    }

    /** `create_list_environments` (lxl.py:868-893). */
    method CreateListEnvironments()
      modifies this
      requires LinesOk(lines)
      ensures lines == ListLines(old(lines))
      ensures text == old(text) && mode == old(mode) && data == old(data) && commands == old(commands)
    {
      lines := ScanListLines(lines);
    }

    /** The body of `Document.__init__` after the file is read: the token
        stages, the lines, the commands, the list lines, the title check and
        the main section. */
    method Build() returns (r: Result<Main>)
      modifies this
      requires commands == map[]
      ensures r == Convert(old(text), old(mode))
      ensures data == Tokens.AddGaps(Tokens.GroupChars(old(text)))
      ensures text == old(text) && mode == old(mode)
      ensures Commands(SourceLines(old(text), old(mode)), map[]).Ok? ==>
                commands == Commands(SourceLines(old(text), old(mode)), map[]).value
                && lines == ListLines(Kept(SourceLines(old(text), old(mode))))
    {
      ghost var source := SourceLines(text, mode);
      GroupChars();
      AddGaps();
      var eqMap := GetEqMap();
      EqMapNewlines(data, mode);
      lines := LinesOf(data, eqMap);
      assert lines == source;
      var ran := RunCommands();
      if ran.Err? {
        return Err(ran.error);
      }
      assert commands == Commands(source, map[]).value;
      CreateListEnvironments();
      assert lines == ListLines(Kept(source));
      if "title" !in commands {
        return Err(MissingTitle);
      }
      r := NewMain(lines, commands["title"]);
    }

    /** `get_meta` (lxl.py:895-910). */
    function GetMeta(tag: string): (r: Result<seq<string>>)
      reads this
      ensures r.Err? <==> tag == "title" && "title" !in commands
      ensures r.Err? ==> r.error == MissingTitle
      ensures r.Ok? ==> (r.value == [] <==> tag !in commands)
      ensures r.Ok? && r.value != [] ==> |r.value| == (if tag == "title" then 3 else 1)
    {
      if tag == "title" then
        if "title" !in commands then Err(MissingTitle)
        else Ok(["<title>", commands["title"], "</title>"])
      else if tag in commands then
        Ok(["<meta name=\"" + tag + "\" content=\"" + commands[tag] + "\"/>"])
      else Ok([])
    }

    /** The `<head>` entries of `tags`, in order. */
    function Metas(tags: seq<string>): (r: Result<seq<string>>)
      reads this
      ensures r.Err? <==> "title" in tags && "title" !in commands
    {
      if tags == [] then Ok([])
      else
        var m :- GetMeta(tags[0]);
        var rest :- Metas(tags[1..]);
        Ok(m + rest)
    }

    /** `Document.accessible('alt')` (lxl.py:971-985) for the main section
        `m`. What `get_external` reads from files (`head` and `footer`) and
        the navigation `get_nav` builds (`nav`) are given. */
    function Page(m: Main, ids: Ids, head: seq<string>, nav: seq<string>, footer: seq<string>): (r: Result<string>)
      reads this
      ensures r.Ok? <==> "title" in commands && RenderMain(m, ids).Ok?
      ensures "title" !in commands ==> r == Err(MissingTitle)
    {
      assert MetaTags[0] == "title";
      var metas :- Metas(MetaTags);
      var body :- RenderMain(m, ids);
      Ok(Join(["<!DOCTYPE html>", "<html lang=\"en\">", "<head>"] + metas + head
              + ["</head>", "<body>"] + nav + [body] + footer + ["</body>", "</html>"], "\n"))
    }
  }
}
