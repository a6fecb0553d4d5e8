/** The character-stream stages of `Document` (lxl.py:794-845): merging the
    two-character delimiters into single tokens, separating doubled line
    breaks, and the parallel in-math map. The loops themselves are methods of
    `Documents.Document`; this module holds the functions they are proved
    against and the properties of those functions. */
module Tokens {
  import opened Util

  /** A token is a one-character string, one of the merged pairs below, or
      a marker the later stages insert (`'parbreak'`, `'uli'`). */
  type Token = string

  const MergedPairs: seq<Token> := ["\\(", "\\)", "\\[", "\\]", "\\$", "$$"]

  /** The two characters `x`, `y` form one token (lxl.py:817-818). */
  predicate Merges(x: char, y: char)
  {
    (x == '\\' && y in "()[]$") || (x == '$' && y == '$')
  }

  /** `group_chars` (lxl.py:810-827), read left to right: a mergeable pair
      becomes one token, every other character its own token. */
  function GroupChars(s: string): (ts: seq<Token>)
    ensures forall k :: 0 <= k < |ts| ==> |ts[k]| == 1 || ts[k] in MergedPairs
    ensures s != [] ==> ts != [] && ts[0] != [] && ts[0][0] == s[0]
    decreases |s|
  {
    if s == [] then []
    else if |s| >= 2 && Merges(s[0], s[1]) then
      MergedPairListed(s[0], s[1]);
      assert s[..2] == [s[0], s[1]];
      [s[..2]] + GroupChars(s[2..])
    else [s[..1]] + GroupChars(s[1..])
  }

  lemma MergedPairListed(x: char, y: char)
    requires Merges(x, y)
    ensures [x, y] in MergedPairs
  {
    if x == '$' {
      assert [x, y] == MergedPairs[5];
    } else if y == '(' {
      assert [x, y] == MergedPairs[0];
    } else if y == ')' {
      assert [x, y] == MergedPairs[1];
    } else if y == '[' {
      assert [x, y] == MergedPairs[2];
    } else if y == ']' {
      assert [x, y] == MergedPairs[3];
    } else {
      assert [x, y] == MergedPairs[4];
    }
  }

  /** Gluing the tokens back together gives the text exactly. */
  lemma {:induction false} GroupCharsConcat(s: string)
    ensures Concat(GroupChars(s)) == s
    decreases |s|
  {
    if s != [] {
      var ts := GroupChars(s);
      if |s| >= 2 && Merges(s[0], s[1]) {
        GroupCharsConcat(s[2..]);
        assert ts[0] == s[..2] && ts[1..] == GroupChars(s[2..]);
        assert s[..2] + s[2..] == s;
      } else {
        GroupCharsConcat(s[1..]);
        assert ts[0] == s[..1] && ts[1..] == GroupChars(s[1..]);
        assert s[..1] + s[1..] == s;
      }
    }
  }

  /** Merging is greedy: no two neighbouring one-character tokens could have
      been merged. */
  lemma {:induction false} GroupCharsMaximal(s: string)
    ensures NoMergeablePair(GroupChars(s))
    decreases |s|
  {
    var ts := GroupChars(s);
    if s != [] {
      var k := if |s| >= 2 && Merges(s[0], s[1]) then 2 else 1;
      var rest := GroupChars(s[k..]);
      GroupCharsMaximal(s[k..]);
      assert ts == [s[..k]] + rest;
      forall i | 0 <= i < |ts| - 1 && |ts[i]| == 1 && |ts[i + 1]| == 1
        ensures !Merges(ts[i][0], ts[i + 1][0])
      {
        if i == 0 {
          assert k == 1;
          assert ts[1] == rest[0] && rest[0][0] == s[1];
        } else {
          assert ts[i] == rest[i - 1] && ts[i + 1] == rest[i];
        }
      }
    }
  }

  predicate NoMergeablePair(ts: seq<Token>)
  {
    forall i :: 0 <= i < |ts| - 1 && |ts[i]| == 1 && |ts[i + 1]| == 1 ==> !Merges(ts[i][0], ts[i + 1][0])
  }

  /** `add_gaps` (lxl.py:794-808): a `' '` token goes between the two
      line breaks of every greedily matched pair of adjacent line breaks. */
  function AddGaps(ts: seq<Token>): (out: seq<Token>)
    ensures |out| >= |ts|
    ensures ts != [] ==> out != [] && out[0] == ts[0]
    decreases |ts|
  {
    if ts == [] then []
    else if |ts| >= 2 && ts[0] == "\n" && ts[1] == "\n" then ["\n", " ", "\n"] + AddGaps(ts[2..])
    else [ts[0]] + AddGaps(ts[1..])
  }

  /** The only tokens `add_gaps` inserts are spaces. */
  lemma {:induction false} AddGapsOnlySpaces(ts: seq<Token>)
    ensures Without(AddGaps(ts), " ") == Without(ts, " ")
    decreases |ts|
  {
    if ts != [] {
      if |ts| >= 2 && ts[0] == "\n" && ts[1] == "\n" {
        AddGapsOnlySpaces(ts[2..]);
        WithoutAppend(["\n", " ", "\n"], AddGaps(ts[2..]), " ");
        WithoutAppend(ts[..2], ts[2..], " ");
        assert ts[..2] + ts[2..] == ts;
        WithoutGap(ts[..2]);
      } else {
        AddGapsOnlySpaces(ts[1..]);
        WithoutAppend([ts[0]], AddGaps(ts[1..]), " ");
        WithoutAppend([ts[0]], ts[1..], " ");
        assert [ts[0]] + ts[1..] == ts;
      }
    }
  }

  lemma WithoutGap(pair: seq<Token>)
    requires pair == ["\n", "\n"]
    ensures Without(["\n", " ", "\n"], " ") == Without(pair, " ")
  {
    assert ["\n", " ", "\n"][1..] == [" ", "\n"];
    assert [" ", "\n"][1..] == ["\n"];
    assert pair[1..] == ["\n"];
  }

  /** After `add_gaps` three line breaks are never adjacent (two still can be:
      see `AddGapsThreeNewlines`). */
  lemma {:induction false} AddGapsNoTripleNewline(ts: seq<Token>)
    ensures NoTripleNewline(AddGaps(ts))
    decreases |ts|
  {
    if ts != [] {
      if |ts| >= 2 && ts[0] == "\n" && ts[1] == "\n" {
        AddGapsNoTripleNewline(ts[2..]);
        AddGapsPairStep(ts);
      } else {
        var rest := AddGaps(ts[1..]);
        AddGapsNoTripleNewline(ts[1..]);
        if |ts| >= 2 {
          assert rest[0] == ts[1..][0] == ts[1];
        }
        NoTripleCons(ts[0], rest);
      }
    }
  }

  lemma AddGapsPairStep(ts: seq<Token>)
    requires |ts| >= 2 && ts[0] == "\n" && ts[1] == "\n"
    requires NoTripleNewline(AddGaps(ts[2..]))
    ensures NoTripleNewline(AddGaps(ts))
  {
    var t := ts[2..];
    var rest := AddGaps(t);
    if |t| >= 2 && t[0] == "\n" && t[1] == "\n" {
      assert rest == ["\n", " ", "\n"] + AddGaps(t[2..]);
    } else if t != [] && t[0] == "\n" {
      AddGapsLoneNewline(t);
    }
    NoTripleCons("\n", rest);
    NoTripleCons(" ", ["\n"] + rest);
    NoTripleCons("\n", [" "] + (["\n"] + rest));
    assert AddGaps(ts) == ["\n"] + ([" "] + (["\n"] + rest));
  }

  predicate NoTripleNewline(out: seq<Token>)
  {
    forall i :: 0 <= i < |out| - 2 ==> !(out[i] == "\n" && out[i + 1] == "\n" && out[i + 2] == "\n")
  }

  lemma NoTripleCons(x: Token, r: seq<Token>)
    requires NoTripleNewline(r)
    requires |r| >= 2 && x == "\n" ==> !(r[0] == "\n" && r[1] == "\n")
    ensures NoTripleNewline([x] + r)
  {
    var out := [x] + r;
    forall i | 0 <= i < |out| - 2
      ensures !(out[i] == "\n" && out[i + 1] == "\n" && out[i + 2] == "\n")
    {
      if i > 0 {
        assert out[i] == r[i - 1] && out[i + 1] == r[i] && out[i + 2] == r[i + 1];
      }
    }
  }

  lemma AddGapsLoneNewline(ts: seq<Token>)
    requires ts != [] && ts[0] == "\n" && !(|ts| >= 2 && ts[1] == "\n")
    ensures |ts| >= 2 ==> |AddGaps(ts)| >= 2 && AddGaps(ts)[1] == ts[1]
    ensures |AddGaps(ts)| >= 2 ==> AddGaps(ts)[1] != "\n"
  {
    if |ts| >= 2 {
      assert AddGaps(ts)[1..] == AddGaps(ts[1..]);
    }
  }

  /** Without doubled line breaks `add_gaps` changes nothing. */
  lemma {:induction false} AddGapsIdentity(ts: seq<Token>)
    requires forall i :: 0 <= i < |ts| - 1 ==> !(ts[i] == "\n" && ts[i + 1] == "\n")
    ensures AddGaps(ts) == ts
    decreases |ts|
  {
    if ts != [] {
      AddGapsIdentity(ts[1..]);
      assert [ts[0]] + ts[1..] == ts;
    }
  }

  /** Three line breaks in a row keep two of them adjacent. */
  lemma AddGapsThreeNewlines()
    ensures AddGaps(["\n", "\n", "\n"]) == ["\n", " ", "\n", "\n"]
  {
    var ts: seq<Token> := ["\n", "\n", "\n"];
    assert ts[2..] == ["\n"];
    assert AddGaps(["\n"]) == ["\n"] + AddGaps([]);
  }

  /** `Document.mode`: which delimiters open and close mathematics. */
  datatype Mode = Bracket  // '\\(': \( \) \[ \] and $$; `$...$` inside gives alt text
              | Dollar   // '$': $ $$ \[ \]; `\(...\)` inside gives alt text

  /** The delimiter list of `get_eq_map` (lxl.py:832-835). */
  predicate IsDelimiter(t: Token, mode: Mode)
  {
    match mode
    case Bracket => t in ["\\[", "\\(", "\\]", "\\)", "$$"]
    case Dollar => t in ["\\[", "$", "\\]", "$$"]
  }

  /** An entry of the map: True/False, or `'\n'` opposite a line break. */
  datatype Mark = Flag(inMath: bool) | Newline

  /** The map entry for one token scanned with `in_eq` equal to `inEq`. */
  function MarkOf(t: Token, mode: Mode, inEq: bool): Mark
  {
    if IsDelimiter(t, mode) then Flag(true) else if t == "\n" then Newline else Flag(inEq)
  }

  /** `in_eq` after scanning `t`: a delimiter flips it. */
  function After(t: Token, mode: Mode, inEq: bool): bool
  {
    if IsDelimiter(t, mode) then !inEq else inEq
  }

  /** `get_eq_map` (lxl.py:829-845) started with `in_eq` equal to `inEq`. */
  function EqMapFrom(ts: seq<Token>, mode: Mode, inEq: bool): (ms: seq<Mark>)
    decreases |ts|
  {
    if ts == [] then [] else [MarkOf(ts[0], mode, inEq)] + EqMapFrom(ts[1..], mode, After(ts[0], mode, inEq))
  }

  function EqMap(ts: seq<Token>, mode: Mode): seq<Mark>
  {
    EqMapFrom(ts, mode, false)
  }

  /** `ts` holds an odd number of delimiter tokens. */
  predicate OddDelimiters(ts: seq<Token>, mode: Mode)
  {
    if ts == [] then false else IsDelimiter(ts[0], mode) != OddDelimiters(ts[1..], mode)
  }

  lemma {:induction false} OddDelimitersAppend(a: seq<Token>, b: seq<Token>, mode: Mode)
    ensures OddDelimiters(a + b, mode) == (OddDelimiters(a, mode) != OddDelimiters(b, mode))
  {
    if a == [] {
      assert a + b == b;
    } else {
      assert (a + b)[0] == a[0] && (a + b)[1..] == a[1..] + b;
      OddDelimitersAppend(a[1..], b, mode);
    }
  }

  /** The map entry at every position, without running the loop: a line
      break gets `'\n'`, a delimiter True, and any other token whether an odd
      number of delimiters precedes it (flipped when the scan starts in math). */
  lemma {:induction false} EqMapAt(ts: seq<Token>, mode: Mode, inEq: bool, i: nat)
    requires i < |ts|
    ensures |EqMapFrom(ts, mode, inEq)| == |ts|
    ensures EqMapFrom(ts, mode, inEq)[i] ==
      if IsDelimiter(ts[i], mode) then Flag(true)
      else if ts[i] == "\n" then Newline
      else Flag(inEq != OddDelimiters(ts[..i], mode))
    decreases i
  {
    EqMapLength(ts, mode, inEq);
    if i > 0 {
      var flip := After(ts[0], mode, inEq);
      EqMapAt(ts[1..], mode, flip, i - 1);
      assert EqMapFrom(ts, mode, inEq)[i] == EqMapFrom(ts[1..], mode, flip)[i - 1];
      assert ts[..i] == [ts[0]] + ts[1..][..i - 1];
      assert ts[1..][i - 1] == ts[i];
      OddDelimitersAppend([ts[0]], ts[1..][..i - 1], mode);
      assert [ts[0]][1..] == [];
    }
  }

  lemma {:induction false} EqMapLength(ts: seq<Token>, mode: Mode, inEq: bool)
    ensures |EqMapFrom(ts, mode, inEq)| == |ts|
    decreases |ts|
  {
    if ts != [] {
      EqMapLength(ts[1..], mode, After(ts[0], mode, inEq));
    }
  }

  /** `'\n'` stands exactly opposite the line breaks, so both streams split
      into lines of the same lengths. */
  lemma EqMapNewlines(ts: seq<Token>, mode: Mode)
    ensures |EqMap(ts, mode)| == |ts|
    ensures forall i :: 0 <= i < |ts| ==> (ts[i] == "\n" <==> EqMap(ts, mode)[i] == Newline)
  {
    EqMapLength(ts, mode, false);
    forall i | 0 <= i < |ts|
      ensures ts[i] == "\n" <==> EqMap(ts, mode)[i] == Newline
    {
      EqMapAt(ts, mode, false, i);
    }
  }
}
