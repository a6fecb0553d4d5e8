/** `Equation` (lxl.py:22-63): a run of in-math tokens, and `close`, which
    splits it into the LaTeX source and the alt text read out in its place. */
module Equations {
  import opened Util
  import opened Tokens

  /** What `close` computes: the LaTeX with its outer delimiters, and the
      alt text. */
  datatype Closing = Closing(latex: string, altText: string)

  /** An equation: its tokens, delimiters included, and, once closed, what
      `close` made of them (`None` for an equation never closed). */
  datatype Equation = Equation(text: seq<Token>, closing: Option<Closing>)

  /** `self.text[1:-1]`: the tokens between the outermost delimiters. */
  function Body(text: seq<Token>): (body: seq<Token>)
    ensures |text| >= 2 ==> |body| == |text| - 2 && text == [text[0]] + body + [text[|text| - 1]]
    ensures |text| < 2 ==> body == []
  {
    if |text| >= 2 then text[1..|text| - 1] else []
  }

  /** The groups `close` takes the LaTeX (first) and the alt text (second)
      from (lxl.py:53-61). */
  function Partition(body: seq<Token>): seq<seq<Token>>
  {
    if "$" in body then SplitBy(body, "$")
    else if "\\(" in body then SplitBy(body[..|body| - 1], "\\(")
    else [body, body]
  }

  /** `Equation.close` (lxl.py:50-63). Indexing a partition with fewer than
      two groups raises, modelled as `AltTextPartition`. The LaTeX keeps the
      equation's own outer delimiters. Without an inner `$` or `\(` the
      LaTeX is the whole text and the alt text is the body (`$x$` reads as
      `x`); a one-token equation has an empty body, so its delimiter is
      doubled and its alt text is empty. */
  function Close(text: seq<Token>): (r: Result<Closing>)
    requires text != []
    ensures r.Err? <==> |Partition(Body(text))| < 2
    ensures r.Ok? ==> r.value.altText == Concat(Partition(Body(text))[1])
    ensures r.Ok? ==> Delimited(r.value.latex, text[0], text[|text| - 1])
    ensures |text| >= 2 && "$" !in Body(text) && "\\(" !in Body(text) ==>
              r == Ok(Closing(Concat(text), Concat(Body(text))))
    ensures |text| == 1 ==> r == Ok(Closing(text[0] + text[0], ""))
  {
    var p := Partition(Body(text));
    if |p| < 2 then Err(AltTextPartition)
    else
      var latex := text[0] + Concat(p[0]) + text[|text| - 1];
      assert latex[..|text[0]|] == text[0];
      assert latex[|latex| - |text[|text| - 1]|..] == text[|text| - 1];
      if |text| >= 2 then
        FramedConcat(text);
        Ok(Closing(latex, Concat(p[1])))
      else
        assert Concat(p[0]) == "";
        Ok(Closing(latex, Concat(p[1])))
  }

  /** `s` opens with `first` and closes with `last`. */
  predicate Delimited(s: string, first: string, last: string)
  {
    |s| >= |first| + |last| && s[..|first|] == first && s[|s| - |last|..] == last
  }

  /** The text of an equation is its first token, its body and its last. */
  lemma FramedConcat(text: seq<Token>)
    requires |text| >= 2
    ensures Concat(text) == text[0] + Concat(Body(text)) + text[|text| - 1]
  {
    var body := Body(text);
    ConcatAppend([text[0]] + body, [text[|text| - 1]]);
    ConcatAppend([text[0]], body);
    assert Concat([text[0]]) == text[0];
    assert Concat([text[|text| - 1]]) == text[|text| - 1];
  }

  /** `$...$` inside the body: the tokens before it are the mathematics and
      the tokens between the two `$` are the alt text. */
  lemma CloseDollarAlt(text: seq<Token>, math: seq<Token>, alt: seq<Token>, rest: seq<Token>)
    requires |text| >= 2 && Body(text) == math + ["$"] + alt + ["$"] + rest
    requires math != [] && alt != [] && "$" !in math && "$" !in alt
    ensures Close(text) == Ok(Closing(text[0] + Concat(math) + text[|text| - 1], Concat(alt)))
  {
    var body := Body(text);
    DollarGroups(body, math, alt, rest);
    assert Partition(body) == SplitBy(body, "$");
  }

  lemma DollarGroups(body: seq<Token>, math: seq<Token>, alt: seq<Token>, rest: seq<Token>)
    requires body == math + ["$"] + alt + ["$"] + rest
    requires math != [] && alt != [] && "$" !in math && "$" !in alt
    ensures "$" in body
    ensures |SplitBy(body, "$")| >= 2 && SplitBy(body, "$")[0] == math && SplitBy(body, "$")[1] == alt
  {
    assert body[|math|] == "$";
    assert body == math + ["$"] + (alt + ["$"] + rest);
    SplitByAtSep(math, alt + ["$"] + rest, "$");
    SplitByAtSep(alt, rest, "$");
    SplitBySepFree(math, "$");
    SplitBySepFree(alt, "$");
  }

  /** `\(...\)` inside a `$`-delimited equation: the token before the opening
      `\(` ends the mathematics, and everything after it up to the body's last
      token (the closing `\)`) is the alt text. */
  lemma CloseBracketAlt(text: seq<Token>, math: seq<Token>, alt: seq<Token>, closer: Token)
    requires |text| >= 2 && Body(text) == math + ["\\("] + alt + [closer]
    requires "$" !in Body(text)
    requires math != [] && alt != [] && "\\(" !in math && "\\(" !in alt
    ensures Close(text) == Ok(Closing(text[0] + Concat(math) + text[|text| - 1], Concat(alt)))
  {
    var body := Body(text);
    assert "\\(" in body by { assert body[|math|] == "\\("; }
    assert body[..|body| - 1] == math + ["\\("] + alt;
    assert alt == alt + [];
    SplitByAtSep(math, alt, "\\(");
    SplitBySepFree(math, "\\(");
    SplitBySepFree(alt, "\\(");
  }

  /** One `$` is enough: with text on both sides of it the part after it is
      the alt text, and with nothing on one side `close` fails. */
  lemma CloseSingleDollar(text: seq<Token>, left: seq<Token>, right: seq<Token>)
    requires |text| >= 2 && Body(text) == left + ["$"] + right
    requires "$" !in left && "$" !in right
    ensures Close(text).Ok? <==> left != [] && right != []
    ensures left != [] && right != [] ==> Close(text).value.altText == Concat(right)
  {
    var body := Body(text);
    assert "$" in body by { assert body[|left|] == "$"; }
    SplitByAtSep(left, right, "$");
    if left != [] { SplitBySepFree(left, "$"); }
    if right != [] { SplitBySepFree(right, "$"); }
  }

  /** The Dollar-mode example: `$x^2$` gives LaTeX `$x^2$` and alt text `x^2`. */
  lemma CloseExample()
    ensures Close(["$", "x", "^", "2", "$"]) == Ok(Closing("$x^2$", "x^2"))
  {
    var text: seq<Token> := ["$", "x", "^", "2", "$"];
    assert Body(text) == ["x", "^", "2"];
    assert Concat(text) == "$x^2$" by {
      assert text[1..] == ["x", "^", "2", "$"];
      assert text[1..][1..] == ["^", "2", "$"];
      assert text[1..][1..][1..] == ["2", "$"];
      assert text[1..][1..][1..][1..] == ["$"];
    }
    assert Concat(["x", "^", "2"]) == "x^2" by {
      var b: seq<Token> := ["x", "^", "2"];
      assert b[1..] == ["^", "2"] && b[1..][1..] == ["2"];
    }
  }
}
