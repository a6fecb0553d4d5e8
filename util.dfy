/** Small shared vocabulary: the failures the converter can raise, a
    failure-compatible result type, and the sequence splitting that the
    converter uses everywhere (`split_by_char` and `str.split`). */
module Util {

  /** The exceptions the converter raises, one constructor per cause. */
  datatype Error =
    | CommandWithoutName      // run_commands: `line_text[1]` on an `@` line with one word
    | MissingTitle            // Document: no `@ title` command was given
    | EnvironmentWithoutName  // Environment: `instruction[1]` on a bare `#` line
    | AltTextPartition        // Equation.close: `partition[0]`/`partition[1]` out of range
    | ListItemWithoutList     // group_list_items: `new_contents[-1]` missing or without contents
    | EmptyEnvironment        // merge: `pop(0)` on an environment with no children
    | UnclosedEquation        // accessible: an Equation that was never closed has no alt text
    | TikzWithoutLabel        // make_tikz: `additional[0]` on a bare `# tikzpicture`
    | NoTikzSource            // make_tikz: `tikz_str` of a child that has none, or `latex` of an unclosed equation

  datatype Result<T> = Ok(value: T) | Err(error: Error) {
    predicate IsFailure() { Err? }
    function PropagateFailure<U>(): Result<U> requires Err? { Err(error) }
    function Extract(): T requires Ok? { value }
  }

  datatype Option<T> = None | Some(value: T)

  /** A prefix one longer is the prefix and the next element. */
  lemma PrefixSnoc<T>(s: seq<T>, j: nat)
    requires j < |s|
    ensures s[..j] + [s[j]] == s[..j + 1]
  {
  }

  /** A non-empty sequence is its head followed by its tail. */
  lemma HeadTail<T>(s: seq<T>)
    requires s != []
    ensures [s[0]] + s[1..] == s
    ensures forall k :: 0 <= k < |s| - 1 ==> s[1..][k] == s[k + 1]
  {
  }

  /** Concatenation of a sequence of sequences (`''.join` on tokens). */
  function Concat<T>(xss: seq<seq<T>>): seq<T>
  {
    if xss == [] then [] else xss[0] + Concat(xss[1..])
  }

  lemma {:induction false} ConcatAppend<T>(a: seq<seq<T>>, b: seq<seq<T>>)
    ensures Concat(a + b) == Concat(a) + Concat(b)
  {
    if a == [] {
      assert a + b == b;
    } else {
      assert (a + b)[0] == a[0] && (a + b)[1..] == a[1..] + b;
      ConcatAppend(a[1..], b);
    }
  }

  /** `sep.join(xs)` */
  function Join(xs: seq<string>, sep: string): string
  {
    if xs == [] then "" else if |xs| == 1 then xs[0] else xs[0] + sep + Join(xs[1..], sep)
  }

  /** The elements of `xs` other than `sep`, in order. */
  function Without<T(==)>(xs: seq<T>, sep: T): (r: seq<T>)
    ensures |r| <= |xs|
  {
    if xs == [] then [] else (if xs[0] == sep then [] else [xs[0]]) + Without(xs[1..], sep)
  }

  /** Number of leading elements of `xs` that differ from `sep`. */
  function RunLength<T(==)>(xs: seq<T>, sep: T): (k: nat)
    ensures k <= |xs|
    ensures sep !in xs[..k]
    ensures k < |xs| ==> xs[k] == sep
  {
    if xs == [] || xs[0] == sep then 0 else 1 + RunLength(xs[1..], sep)
  }

  /** `split_by_char(xs, sep)` (lxl.py:16-20): the maximal runs of elements
      other than `sep`, empty runs dropped (itertools.groupby). */
  function SplitBy<T(==)>(xs: seq<T>, sep: T): (groups: seq<seq<T>>)
    ensures forall g :: g in groups ==> g != [] && sep !in g
    decreases |xs|
  {
    if xs == [] then []
    else if xs[0] == sep then SplitBy(xs[1..], sep)
    else
      var k := RunLength(xs, sep);
      [xs[..k]] + SplitBy(xs[k..], sep)
  }

  /** Gluing the groups back together gives the input without its separators. */
  lemma {:induction false} SplitByConcat<T>(xs: seq<T>, sep: T)
    ensures Concat(SplitBy(xs, sep)) == Without(xs, sep)
    decreases |xs|
  {
    if xs == [] {
    } else if xs[0] == sep {
      SplitByConcat(xs[1..], sep);
    } else {
      var k := RunLength(xs, sep);
      SplitByConcat(xs[k..], sep);
      WithoutSepFree(xs[..k], sep);
      WithoutAppend(xs[..k], xs[k..], sep);
      assert xs[..k] + xs[k..] == xs;
    }
  }

  lemma {:induction false} WithoutAppend<T>(a: seq<T>, b: seq<T>, sep: T)
    ensures Without(a + b, sep) == Without(a, sep) + Without(b, sep)
  {
    if a == [] {
      assert a + b == b;
    } else {
      assert (a + b)[0] == a[0] && (a + b)[1..] == a[1..] + b;
      WithoutAppend(a[1..], b, sep);
    }
  }

  lemma {:induction false} WithoutSepFree<T>(a: seq<T>, sep: T)
    requires sep !in a
    ensures Without(a, sep) == a
  {
    if a != [] {
      WithoutSepFree(a[1..], sep);
    }
  }

  /** A non-empty run without separators is one group. */
  lemma SplitBySepFree<T>(xs: seq<T>, sep: T)
    requires xs != [] && sep !in xs
    ensures SplitBy(xs, sep) == [xs]
  {
    RunLengthAll(xs, sep);
    assert xs[..|xs|] == xs && xs[|xs|..] == [];
  }

  lemma {:induction false} RunLengthAll<T>(xs: seq<T>, sep: T)
    requires sep !in xs
    ensures RunLength(xs, sep) == |xs|
  {
    if xs != [] {
      RunLengthAll(xs[1..], sep);
    }
  }

  /** Splitting distributes over a separator: together with the empty and the
      separator-free case this determines `SplitBy` completely. */
  lemma {:induction false} SplitByAtSep<T>(a: seq<T>, b: seq<T>, sep: T)
    ensures SplitBy(a + [sep] + b, sep) == SplitBy(a, sep) + SplitBy(b, sep)
    decreases |a|
  {
    var xs := a + [sep] + b;
    if a == [] {
      assert xs[1..] == b;
    } else if a[0] == sep {
      assert xs[1..] == a[1..] + [sep] + b;
      SplitByAtSep(a[1..], b, sep);
    } else {
      var k := RunLength(a, sep);
      RunLengthPrefix(a, [sep] + b, sep);
      assert a + ([sep] + b) == xs;
      assert xs[..k] == a[..k];
      assert SplitBy(xs, sep) == [a[..k]] + SplitBy(xs[k..], sep);
      assert SplitBy(a, sep) == [a[..k]] + SplitBy(a[k..], sep);
      SplitByAtSepTail(a, b, sep, k);
    }
  }

  /** The part of `SplitByAtSep` after the first group of `a`. */
  lemma {:induction false} SplitByAtSepTail<T>(a: seq<T>, b: seq<T>, sep: T, k: nat)
    requires 0 < k <= |a|
    ensures SplitBy((a + [sep] + b)[k..], sep) == SplitBy(a[k..], sep) + SplitBy(b, sep)
    decreases |a|, 0
  {
    var xs := a + [sep] + b;
    if k < |a| {
      assert xs[k..] == a[k..] + [sep] + b;
      SplitByAtSep(a[k..], b, sep);
    } else {
      assert xs[k..] == [sep] + b;
      assert ([sep] + b)[1..] == b;
      assert a[k..] == [];
    }
  }

  lemma {:induction false} RunLengthPrefix<T>(a: seq<T>, b: seq<T>, sep: T)
    requires b != [] && b[0] == sep
    ensures RunLength(a + b, sep) == RunLength(a, sep)
  {
    if a != [] {
      assert (a + b)[1..] == a[1..] + b;
      RunLengthPrefix(a[1..], b, sep);
    }
  }

  /** There are never more groups than elements. */
  lemma {:induction false} SplitByCount<T>(xs: seq<T>, sep: T)
    ensures |SplitBy(xs, sep)| <= |xs|
    decreases |xs|
  {
    if xs != [] {
      if xs[0] == sep {
        SplitByCount(xs[1..], sep);
      } else {
        SplitByCount(xs[RunLength(xs, sep)..], sep);
      }
    }
  }

  /** Two sequences whose separators sit at the same positions split into
      groups of the same lengths (the zip of lxl.py:783-785 lines them up). */
  lemma {:induction false} SplitByAligned<A, B>(xs: seq<A>, sepX: A, ys: seq<B>, sepY: B)
    requires |xs| == |ys|
    requires forall i :: 0 <= i < |xs| ==> (xs[i] == sepX <==> ys[i] == sepY)
    ensures |SplitBy(xs, sepX)| == |SplitBy(ys, sepY)|
    ensures forall j :: 0 <= j < |SplitBy(xs, sepX)| ==>
              |SplitBy(xs, sepX)[j]| == |SplitBy(ys, sepY)[j]|
    decreases |xs|
  {
    if xs != [] {
      if xs[0] == sepX {
        SplitByAligned(xs[1..], sepX, ys[1..], sepY);
      } else {
        var k := RunLengthAligned(xs, sepX, ys, sepY);
        SplitByAligned(xs[k..], sepX, ys[k..], sepY);
      }
    }
  }

  lemma {:induction false} RunLengthAligned<A, B>(xs: seq<A>, sepX: A, ys: seq<B>, sepY: B) returns (k: nat)
    requires |xs| == |ys|
    requires forall i :: 0 <= i < |xs| ==> (xs[i] == sepX <==> ys[i] == sepY)
    ensures k == RunLength(xs, sepX) == RunLength(ys, sepY)
  {
    if xs == [] || xs[0] == sepX {
      k := 0;
    } else {
      k := RunLengthAligned(xs[1..], sepX, ys[1..], sepY);
      k := k + 1;
    }
  }

  /** The characters for which Python's `str.isspace()` holds. */
  predicate IsSpaceChar(c: char)
  {
    var n := c as int;
    (0x09 <= n <= 0x0D) || (0x1C <= n <= 0x20) || n == 0x85 || n == 0xA0 || n == 0x1680
    || (0x2000 <= n <= 0x200A) || n == 0x2028 || n == 0x2029 || n == 0x202F || n == 0x205F
    || n == 0x3000
  }

  /** Length of the leading run of non-whitespace characters. */
  function WordLength(s: string): (k: nat)
    ensures k <= |s|
    ensures forall i :: 0 <= i < k ==> !IsSpaceChar(s[i])
    ensures k < |s| ==> IsSpaceChar(s[k])
  {
    if s == [] || IsSpaceChar(s[0]) then 0 else 1 + WordLength(s[1..])
  }

  /** `s.split()`: the maximal runs of non-whitespace characters. */
  function SplitWords(s: string): (words: seq<string>)
    ensures forall w :: w in words ==> w != [] && forall i :: 0 <= i < |w| ==> !IsSpaceChar(w[i])
    decreases |s|
  {
    if s == [] then []
    else if IsSpaceChar(s[0]) then SplitWords(s[1..])
    else
      var k := WordLength(s);
      [s[..k]] + SplitWords(s[k..])
  }

  /** `s` with its whitespace characters removed. */
  function NonSpace(s: string): (r: string)
    ensures |r| <= |s|
  {
    if s == [] then [] else (if IsSpaceChar(s[0]) then [] else [s[0]]) + NonSpace(s[1..])
  }

  lemma {:induction false} NonSpaceAppend(a: string, b: string)
    ensures NonSpace(a + b) == NonSpace(a) + NonSpace(b)
  {
    if a == [] {
      assert a + b == b;
    } else {
      assert (a + b)[0] == a[0] && (a + b)[1..] == a[1..] + b;
      NonSpaceAppend(a[1..], b);
    }
  }

  lemma {:induction false} NonSpaceWord(w: string)
    requires forall i :: 0 <= i < |w| ==> !IsSpaceChar(w[i])
    ensures NonSpace(w) == w
  {
    if w != [] {
      NonSpaceWord(w[1..]);
      assert [w[0]] + w[1..] == w;
    }
  }

  /** The words of `s.split()`, put back together, are `s` without its
      whitespace: splitting loses nothing but the separators. */
  lemma {:induction false} SplitWordsConcat(s: string)
    ensures Concat(SplitWords(s)) == NonSpace(s)
    decreases |s|
  {
    if s == [] {
    } else if IsSpaceChar(s[0]) {
      SplitWordsConcat(s[1..]);
    } else {
      var k := WordLength(s);
      var w, t := s[..k], s[k..];
      assert w + t == s;
      SplitWordsConcat(t);
      NonSpaceWord(w);
      NonSpaceAppend(w, t);
      assert ([w] + SplitWords(t))[1..] == SplitWords(t);
    }
  }

  /** `str(n)` for a natural number. */
  function NatToString(n: nat): (s: string)
    ensures |s| > 0
    decreases n
  {
    var d := ["0", "1", "2", "3", "4", "5", "6", "7", "8", "9"][n % 10];
    if n < 10 then d else NatToString(n / 10) + d
  }
}
