/** The alt-text renderer: the `accessible('alt')` methods of `Equation`,
    `Line`, `Paragraph`, `Environment` (lxl.py:606-633), `Section`
    (lxl.py:731-739) and `Main` (lxl.py:764-771). Every one of them builds a
    list of strings and joins it with line breaks. */
module Render {
  import opened Util
  import opened Tokens
  import opened Equations
  import opened Lines
  import opened Tree
  import opened Sections

  /** `theorem_list` (lxl.py:8). */
  const TheoremList: seq<string> :=
    ["Lemma", "Theorem", "Corollary", "Definition", "Example", "Proposition", "Proof", "Remark"]

  /** `img_path` (lxl.py:10). */
  const ImgPath: string := "./img/"

  // ---------------------------------------------------------------------
  // Lines and paragraphs

  /** An item that has alt text: a token, or an equation `close` has seen. */
  predicate Closed(x: Item)
  {
    x.Eqn? ==> x.eq.closing.Some?
  }

  predicate AllClosed(items: seq<Item>)
  {
    forall i :: 0 <= i < |items| ==> Closed(items[i])
  }

  /** A token is itself; an equation is its alt text, which an equation
      never closed does not have (`Equation.accessible`, lxl.py:121-125). */
  function RenderItem(x: Item): (r: Result<string>)
    ensures r.Ok? <==> Closed(x)
    ensures r.Err? ==> r.error == UnclosedEquation
  {
    match x
    case Tok(s) => Ok(s)
    case Eqn(eq) =>
      if eq.closing.None? then Err(UnclosedEquation) else Ok(eq.closing.value.altText)
  }

  /** `Line.accessible` and `Paragraph.accessible` (lxl.py:299-306,
      346-353): the items' renderings, one after another. */
  function RenderItems(items: seq<Item>): (r: Result<string>)
    ensures r.Ok? <==> AllClosed(items)
    ensures r.Err? ==> r.error == UnclosedEquation
    decreases |items|
  {
    if items == [] then Ok("")
    else
      assert forall i :: 0 <= i < |items| - 1 ==> items[1..][i] == items[i + 1];
      var h :- RenderItem(items[0]);
      var t :- RenderItems(items[1..]);
      Ok(h + t)
  }

  /** The loop of `Line.accessible`. */
  method RenderLine(items: seq<Item>) returns (r: Result<string>)
    ensures r == RenderItems(items)
  {
    var strs := "";
    assert items[0..] == items;
    if RenderItems(items).Ok? {
      assert "" + RenderItems(items).value == RenderItems(items).value;
    }
    for k := 0 to |items|
      invariant RenderItems(items) == (match RenderItems(items[k..])
                                       case Err(e) => Err(e)
                                       case Ok(t) => Ok(strs + t))
    {
      assert items[k..][0] == items[k] && items[k..][1..] == items[k + 1..];
      var x := RenderItem(items[k]);
      if x.Err? {
        return Err(x.error);
      }
      RenderItemsAt(items, k, strs, x.value);
      strs := strs + x.value;
    }
    assert items[|items|..] == [];
    assert strs + "" == strs;
    r := Ok(strs);
  }

  lemma RenderItemsAt(items: seq<Item>, k: nat, strs: string, x: string)
    requires k < |items| && RenderItem(items[k]) == Ok(x)
    ensures (match RenderItems(items[k..]) case Err(e) => Err(e) case Ok(t) => Ok(strs + t))
            == (match RenderItems(items[k + 1..]) case Err(e) => Err(e) case Ok(t) => Ok((strs + x) + t))
  {
    assert items[k..][0] == items[k] && items[k..][1..] == items[k + 1..];
    var rest := RenderItems(items[k + 1..]);
    if rest.Ok? {
      assert strs + (x + rest.value) == (strs + x) + rest.value;
    }
  }

  /** A line of tokens only reads as its own text. */
  lemma {:induction false} RenderTokens(items: seq<Item>)
    requires AllTok(items)
    ensures RenderItems(items) == Ok(Text(items))
    decreases |items|
  {
    if items != [] {
      assert AllTok(items[1..]) by {
        assert forall i :: 0 <= i < |items| - 1 ==> items[1..][i] == items[i + 1];
      }
      RenderTokens(items[1..]);
    }
  }

  /** Rendering distributes over concatenation. */
  lemma {:induction false} RenderItemsAppend(a: seq<Item>, b: seq<Item>)
    requires AllClosed(a) && AllClosed(b)
    ensures RenderItems(a + b) == Ok(RenderItems(a).value + RenderItems(b).value)
    decreases |a|
  {
    if a == [] {
      assert a + b == b;
      assert "" + RenderItems(b).value == RenderItems(b).value;
    } else {
      assert (a + b)[0] == a[0] && (a + b)[1..] == a[1..] + b;
      assert AllClosed(a[1..]) by {
        assert forall i :: 0 <= i < |a| - 1 ==> a[1..][i] == a[i + 1];
      }
      RenderItemsAppend(a[1..], b);
      var h := RenderItem(a[0]).value;
      assert h + (RenderItems(a[1..]).value + RenderItems(b).value)
             == (h + RenderItems(a[1..]).value) + RenderItems(b).value;
    }
  }

  /** Lines joined by `merge` (`Line.__add__`) read as the two lines with a
      space between them. */
  lemma RenderJoinedLines(a: Line, b: Line)
    requires Valid(a) && Valid(b) && AllClosed(a.chars) && AllClosed(b.chars)
    ensures RenderItems(Append(a, b).chars)
            == Ok(RenderItems(a.chars).value + " " + RenderItems(b.chars).value)
  {
    var j := Append(a, b).chars;
    assert j == a.chars + [Tok(" ")] + b.chars;
    assert RenderItems([Tok(" ")]) == Ok(" ") by {
      assert [Tok(" ")][1..] == [];
      assert " " + "" == " ";
    }
    RenderItemsAppend(a.chars, [Tok(" ")]);
    RenderItemsAppend(a.chars + [Tok(" ")], b.chars);
  }

  /** After `equify`, a line renders exactly when it does not end inside
      mathematics: the equation that ends a line is never closed. */
  lemma EquifiedLineRenders(l: Line)
    requires Valid(l) && AllTok(l.chars) && Equify(l).Ok?
    ensures RenderItems(Equify(l).value.chars).Ok? <==> !l.marks[|l.marks| - 1]
  {
    var r := Equify(l).value;
    EquifiedPrefixClosed(l);
    EquifiedLastClosed(l);
    if !l.marks[|l.marks| - 1] {
      assert forall k :: 0 <= k < |r.chars| ==> Closed(r.chars[k]);
    }
  }

  lemma EquifiedPrefixClosed(l: Line)
    requires Valid(l) && AllTok(l.chars) && Equify(l).Ok?
    ensures Equify(l).value.chars != []
    ensures forall k :: 0 <= k < |Equify(l).value.chars| - 1 ==> Closed(Equify(l).value.chars[k])
  {
    EquifyProperties(l);
    var r := Equify(l).value;
    forall k | 0 <= k < |r.chars| - 1
      ensures Closed(r.chars[k])
    {
      assert Settled(r.chars[k]);
    }
  }

  lemma EquifiedLastClosed(l: Line)
    requires Valid(l) && AllTok(l.chars) && Equify(l).Ok?
    ensures var cs := Equify(l).value.chars;
            cs != [] && (Closed(cs[|cs| - 1]) <==> !l.marks[|l.marks| - 1])
  {
    EquifyProperties(l);
    var cs := Equify(l).value.chars;
    var x := cs[|cs| - 1];
    if l.marks[|l.marks| - 1] {
      assert IsOpen(x);
    } else {
      assert Settled(x);
    }
  }

  // ---------------------------------------------------------------------
  // Environments

  /** The image tag `make_tikz` returns (lxl.py:591-595) for the image
      `jpg` and the alt text `alt`. The first two strings of its list are
      one literal, so only two line breaks are put in. */
  function TikzFigure(jpg: string, alt: string): string
  {
    Join(["<figure><center><img src=\"" + jpg + ".jpg\" alt=\"" + alt + "\"/>", "</center>", "</figure>"], "\n")
  }

  /** The children of a `tikzpicture` that `make_tikz` can write into its
      `.tex` file (lxl.py:575): lines only (`Element` has no `tikz_str`),
      whose equations are all closed (`Equation.tikz_str` reads `latex`). */
  predicate TikzSource(cs: seq<Node>)
  {
    forall i :: 0 <= i < |cs| ==> cs[i].LineNode? && AllClosed(cs[i].line.chars)
  }

  /** `make_tikz` (lxl.py:546-597) as far as the page sees it: the alt text
      is the words after the label, and the image is named after the label,
      which must be there; then every child must print as LaTeX. Drawing
      the image is not part of this model. */
  function TikzTag(additional: seq<string>, cs: seq<Node>): (r: Result<string>)
    ensures r.Ok? <==> additional != [] && TikzSource(cs)
    ensures r.Err? ==> r.error == if additional == [] then TikzWithoutLabel else NoTikzSource
  {
    var alt := if |additional| > 1 then Join(additional[1..], " ") else "No alt text yet, sorry";
    if additional == [] then Err(TikzWithoutLabel)
    else if !TikzSource(cs) then Err(NoTikzSource)
    else Ok(TikzFigure(ImgPath + additional[0], alt))
  }

  /** The caption of a theorem-like environment (lxl.py:609-619). */
  function Caption(name: string, additional: seq<string>): (r: seq<string>)
    ensures |r| == if additional == [] then 1 else 3
  {
    if additional == [] then ["<figcaption>" + name + ": </figcaption>"]
    else
      ["<figcaption id=\"" + additional[0] + "\">",
       if |additional| > 1 then name + " (" + Join(additional[1..], " ") + "): " else name + ": ",
       "</figcaption>"]
  }

  /** A node whose rendering raises nothing: its equations are closed, and
      a `tikzpicture` has a label and holds only lines whose equations are
      closed. The children of a `tikzpicture` are printed as LaTeX, not
      rendered. */
  predicate Renderable(n: Node)
  {
    match n
    case LineNode(l) => AllClosed(l.chars)
    case Para(cs) => AllClosed(cs)
    case Env(name, additional, _, cs) =>
      if name == "tikzpicture" then additional != [] && TikzSource(cs)
      else forall i :: 0 <= i < |cs| ==> Renderable(cs[i])
  }

  /** `accessible('alt')` of a line, paragraph or environment. */
  function RenderNode(n: Node): (r: Result<string>)
    ensures r.Ok? <==> Renderable(n)
    decreases n, 1
  {
    match n
    case LineNode(l) => RenderItems(l.chars)
    case Para(cs) => RenderItems(cs)
    case Env(name, additional, _, cs) =>
      if name in TheoremList then
        var children :- RenderAll(cs);
        Ok(Join(["<figure class=\"" + name + "\">"] + Caption(name, additional) + children + ["</figure>"], "\n"))
      else if name == "void" then
        var children :- RenderAll(cs);
        Ok(Join(children, "\n"))
      else if name == "tikzpicture" then TikzTag(additional, cs)
      else
        var children :- RenderAll(cs);
        Ok(Join(["<" + name + ">"] + children + ["</" + name + ">"], "\n"))
  }

  /** `[c.accessible(modus) for c in contents]`. */
  function RenderAll(ns: seq<Node>): (r: Result<seq<string>>)
    ensures r.Ok? <==> forall i :: 0 <= i < |ns| ==> Renderable(ns[i])
    ensures r.Ok? ==> |r.value| == |ns|
    decreases ns, 0
  {
    if ns == [] then Ok([])
    else
      assert forall i :: 0 <= i < |ns| - 1 ==> ns[1..][i] == ns[i + 1];
      var h :- RenderNode(ns[0]);
      var t :- RenderAll(ns[1..]);
      Ok([h] + t)
  }

  lemma JoinCons(x: string, ys: seq<string>, sep: string)
    requires ys != []
    ensures Join([x] + ys, sep) == x + sep + Join(ys, sep)
  {
    assert ([x] + ys)[0] == x && ([x] + ys)[1..] == ys;
  }

  lemma {:induction false} JoinSnoc(xs: seq<string>, y: string, sep: string)
    ensures Join(xs + [y], sep) == if xs == [] then y else Join(xs, sep) + sep + y
    decreases |xs|
  {
    if xs != [] {
      assert (xs + [y])[0] == xs[0] && (xs + [y])[1..] == xs[1..] + [y];
      JoinSnoc(xs[1..], y, sep);
      if xs[1..] != [] {
        assert xs[0] + sep + (Join(xs[1..], sep) + sep + y) == (xs[0] + sep + Join(xs[1..], sep)) + sep + y;
      }
    }
  }

  /** Any environment that is not theorem-like, `void` or `tikzpicture`
      reads as its children, one per line, between an opening and a
      closing tag named after it. */
  lemma TaggedEnvironment(name: string, additional: seq<string>, indent: int, cs: seq<Node>)
    requires name !in TheoremList && name != "void" && name != "tikzpicture"
    requires RenderAll(cs).Ok?
    ensures RenderNode(Env(name, additional, indent, cs))
            == Ok("<" + name + ">" + "\n"
                  + (if cs == [] then "" else Join(RenderAll(cs).value, "\n") + "\n")
                  + ("</" + name + ">"))
  {
    var children := RenderAll(cs).value;
    var open, close := "<" + name + ">", "</" + name + ">";
    assert RenderNode(Env(name, additional, indent, cs)) == Ok(Join([open] + children + [close], "\n"));
    assert [open] + children + [close] == [open] + (children + [close]);
    JoinCons(open, children + [close], "\n");
    JoinSnoc(children, close, "\n");
    if children == [] {
      assert children + [close] == [close];
      assert open + "\n" + "" == open + "\n";
    } else {
      Assoc(open + "\n", Join(children, "\n") + "\n", close);
    }
  }

  /** A paragraph of tokens, as `make_paragraphs` wraps it, reads as
      `<p>`, its text and `</p>` on three lines. */
  lemma ParagraphHtml(g: seq<Item>)
    requires AllTok(g)
    ensures RenderNode(Env("p", [], -1, [Para(g)])) == Ok("<p>\n" + Text(g) + "\n</p>")
  {
    RenderTokens(g);
    assert AllClosed(g);
    assert RenderAll([Para(g)]) == Ok([Text(g)]) by {
      assert [Para(g)][1..] == [];
      assert RenderNode(Para(g)) == Ok(Text(g));
      assert [Text(g)] + [] == [Text(g)];
    }
    assert "p" !in TheoremList;
    TaggedEnvironment("p", [], -1, [Para(g)]);
    assert Join([Text(g)], "\n") == Text(g);
    assert "<" + "p" + ">" + "\n" == "<p>\n" && "</" + "p" + ">" == "</p>";
    Assoc("<p>\n", Text(g), "\n");
    Assoc("<p>\n" + Text(g), "\n", "</p>");
    assert "\n" + "</p>" == "\n</p>";
  }

  /** A picture's image is named after its label, and its alt text is the
      words after the label, or a stock text when there are none; a picture
      without a label fails. */
  lemma TikzAltText(id: string, words: seq<string>, indent: int, cs: seq<Node>)
    requires TikzSource(cs)
    ensures RenderNode(Env("tikzpicture", [id] + words, indent, cs))
            == Ok(TikzFigure("./img/" + id, if words == [] then "No alt text yet, sorry" else Join(words, " ")))
    ensures RenderNode(Env("tikzpicture", [], indent, cs)) == Err(TikzWithoutLabel)
  {
    assert "tikzpicture" !in TheoremList;
    assert ([id] + words)[0] == id && ([id] + words)[1..] == words;
  }

  /** A labelled picture holding an environment fails when `make_tikz`
      asks that child for its LaTeX. */
  lemma TikzNestedEnvironment(id: string, words: seq<string>, indent: int, cs: seq<Node>, k: nat)
    requires k < |cs| && cs[k].Env?
    ensures RenderNode(Env("tikzpicture", [id] + words, indent, cs)) == Err(NoTikzSource)
  {
    assert "tikzpicture" !in TheoremList;
  }

  /** A theorem-like environment without arguments is a figure whose
      caption is its name. */
  lemma TheoremFigure(name: string, indent: int, cs: seq<Node>)
    requires name in TheoremList && RenderAll(cs).Ok? && cs != []
    ensures RenderNode(Env(name, [], indent, cs))
            == Ok("<figure class=\"" + name + "\">" + "\n"
                  + ("<figcaption>" + name + ": </figcaption>" + "\n"
                     + (Join(RenderAll(cs).value, "\n") + "\n" + "</figure>")))
  {
    var children := RenderAll(cs).value;
    var open := "<figure class=\"" + name + "\">";
    var cap := "<figcaption>" + name + ": </figcaption>";
    assert [open] + Caption(name, []) + children + ["</figure>"] == [open] + ([cap] + (children + ["</figure>"]));
    JoinCons(open, [cap] + (children + ["</figure>"]), "\n");
    JoinCons(cap, children + ["</figure>"], "\n");
    JoinSnoc(children, "</figure>", "\n");
  }

  // ---------------------------------------------------------------------
  // Sections and the main section

  /** The random `idnum` of each section (lxl.py:660), given by the
      section's position in the tree: the indices of its ancestors and its
      own among its siblings. */
  type Ids = seq<nat> -> string

  predicate SectionRenderable(s: Section)
  {
    Renderable(s.void) && forall i :: 0 <= i < |s.sections| ==> SectionRenderable(s.sections[i])
  }

  /** `Section.accessible` (lxl.py:731-739): the region and its heading, the
      section's own content, its subsections and the closing tag. */
  function RenderSection(s: Section, ids: Ids, path: seq<nat>): (r: Result<string>)
    ensures r.Ok? <==> SectionRenderable(s)
    decreases s, 1
  {
    var id := ids(path);
    var h := NatToString(s.stars + 1);
    var void :- RenderNode(s.void);
    var subs :- RenderSections(s.sections, ids, path, 0);
    Ok(Join(["<section id=\"s" + id + "\" aria-labelledby=\"h" + id + "\" role=\"region\">",
             "<h" + h + " id=\"h" + id + "\">" + s.name + "</h" + h + ">",
             void] + subs + ["</section>"], "\n"))
  }

  /** The sections `ss`, the first of which is child number `k` of the
      section at `path`. */
  function RenderSections(ss: seq<Section>, ids: Ids, path: seq<nat>, k: nat): (r: Result<seq<string>>)
    ensures r.Ok? <==> forall i :: 0 <= i < |ss| ==> SectionRenderable(ss[i])
    ensures r.Ok? ==> |r.value| == |ss|
    decreases ss, 0
  {
    if ss == [] then Ok([])
    else
      assert forall i :: 0 <= i < |ss| - 1 ==> ss[1..][i] == ss[i + 1];
      var h :- RenderSection(ss[0], ids, path + [k]);
      var t :- RenderSections(ss[1..], ids, path, k + 1);
      Ok([h] + t)
  }

  /** `Main.accessible` (lxl.py:764-771): the banner with the title, then
      the sections. */
  function RenderMain(m: Main, ids: Ids): (r: Result<string>)
    ensures r.Ok? <==> forall i :: 0 <= i < |m.sections| ==> SectionRenderable(m.sections[i])
  {
    var subs :- RenderSections(m.sections, ids, [], 0);
    Ok(Join(["<main role=\"main\">", "<header role=\"banner\">", "<h1>" + m.title + "</h1>", "</header>"]
            + subs + ["</main>"], "\n"))
  }
}
