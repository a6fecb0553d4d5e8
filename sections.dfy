/** Sections (lxl.py:636-771): the heading tree built by `sectionise` out of
    the document's lines, then `Section.taggify`, which processes each
    section's own lines as a `void` environment, and `Main`. */
module Sections {
  import opened Util
  import opened Lines
  import opened Tree
  import opened Passes

  /** The name `Section.__init__` reads off a heading line: the text after
      the stars and the character that follows them (Python slicing gives
      `''` past the end). */
  function HeadingName(l: Line): string
    requires LineOk(l)
  {
    var s := Stars(l);
    if s + 1 <= |l.chars| then Text(l.chars[s + 1..]) else ""
  }

  /** A subsection while `sectionise` fills it: its heading line and the
      lines given to it. */
  datatype Pending = Pending(header: Line, body: seq<Line>)

  function PendingLines(p: Pending): seq<Line>
  {
    [p.header] + p.body
  }

  /** The lines of the subsections, in order. */
  function Flat(ps: seq<Pending>): seq<Line>
  {
    if ps == [] then [] else PendingLines(ps[0]) + Flat(ps[1..])
  }

  /** `orphaned_contents` and `sections`; `orphan_mode` holds exactly while
      no subsection is open. */
  datatype SectState = SectState(orphans: seq<Line>, pending: seq<Pending>)

  /** One turn of the loop of `sectionise` in a section of depth `depth`.
      Before the first heading any starred line opens a subsection, of
      whatever depth; after it only a line with exactly `depth + 1` stars
      does, and every other line goes to the last subsection. */
  function SectStep(st: SectState, l: Line, depth: nat): (r: SectState)
    requires Valid(l)
  {
    var n := |st.pending| - 1;
    if st.pending == [] then
      if Stars(l) > 0 then SectState(st.orphans, [Pending(l, [])])
      else SectState(st.orphans + [l], [])
    else if Stars(l) != depth + 1 then
      SectState(st.orphans, st.pending[..n] + [Pending(st.pending[n].header, st.pending[n].body + [l])])
    else SectState(st.orphans, st.pending + [Pending(l, [])])
  }

  function SectFold(lines: seq<Line>, st: SectState, depth: nat): SectState
    requires LinesOk(lines)
    decreases |lines|
  {
    if lines == [] then st
    else
      LinesOkTail(lines);
      SectFold(lines[1..], SectStep(st, lines[0], depth), depth)
  }

  /** What `sectionise` promises of its split of a section of depth `depth`:
      the orphans have no stars and come first; the first subsection starts
      with a starred line, every later one with a line of exactly `depth + 1`
      stars, and no other line of a subsection has `depth + 1` stars. */
  predicate Sectioned(st: SectState, depth: nat)
  {
    && LinesOk(st.orphans)
    && (forall k :: 0 <= k < |st.orphans| ==> Stars(st.orphans[k]) == 0)
    && Subdivided(st.pending, depth)
  }

  /** The part of `Sectioned` about the subsections. */
  predicate Subdivided(ps: seq<Pending>, depth: nat)
  {
    && (forall j :: 0 <= j < |ps| ==> LineOk(ps[j].header) && LinesOk(ps[j].body))
    && (ps != [] ==> Stars(ps[0].header) > 0)
    && (forall j :: 0 < j < |ps| ==> Stars(ps[j].header) == depth + 1)
    && (forall j, k :: 0 <= j < |ps| && 0 <= k < |ps[j].body| ==> Stars(ps[j].body[k]) != depth + 1)
  }

  lemma {:induction false} FlatPush(ps: seq<Pending>, p: Pending)
    ensures Flat(ps + [p]) == Flat(ps) + PendingLines(p)
  {
    if ps == [] {
      assert [p][1..] == [];
    } else {
      assert (ps + [p])[1..] == ps[1..] + [p];
      FlatPush(ps[1..], p);
      Assoc(PendingLines(ps[0]), Flat(ps[1..]), PendingLines(p));
    }
  }

  lemma FlatExtend(pre: seq<Pending>, p: Pending, l: Line)
    ensures Flat(pre + [Pending(p.header, p.body + [l])]) == Flat(pre + [p]) + [l]
  {
    FlatPush(pre, p);
    FlatPush(pre, Pending(p.header, p.body + [l]));
    assert PendingLines(Pending(p.header, p.body + [l])) == PendingLines(p) + [l];
    Assoc(Flat(pre), PendingLines(p), [l]);
  }

  lemma SectStepLines(st: SectState, l: Line, depth: nat)
    requires Valid(l)
    ensures var r := SectStep(st, l, depth);
            r.orphans + Flat(r.pending) == st.orphans + Flat(st.pending) + [l]
  {
    var n := |st.pending| - 1;
    if st.pending == [] {
      if Stars(l) > 0 {
        FlatPush([], Pending(l, []));
        assert [] + [Pending(l, [])] == [Pending(l, [])];
      }
    } else if Stars(l) != depth + 1 {
      FlatExtend(st.pending[..n], st.pending[n], l);
      assert st.pending[..n] + [st.pending[n]] == st.pending;
    } else {
      FlatPush(st.pending, Pending(l, []));
    }
  }

  lemma SectStepSectioned(st: SectState, l: Line, depth: nat)
    requires LineOk(l) && Sectioned(st, depth)
    ensures Sectioned(SectStep(st, l, depth), depth)
  {
    var n := |st.pending| - 1;
    if st.pending == [] {
      if Stars(l) == 0 {
        assert SectStep(st, l, depth).orphans == st.orphans + [l];
      }
    } else if Stars(l) != depth + 1 {
      SubdividedExtend(st.pending, l, depth);
    } else {
      SubdividedPush(st.pending, l, depth);
    }
  }

  lemma SubdividedExtend(ps: seq<Pending>, l: Line, depth: nat)
    requires ps != [] && LineOk(l) && Stars(l) != depth + 1 && Subdivided(ps, depth)
    ensures var n := |ps| - 1;
            Subdivided(ps[..n] + [Pending(ps[n].header, ps[n].body + [l])], depth)
  {
    var n := |ps| - 1;
    var r := ps[..n] + [Pending(ps[n].header, ps[n].body + [l])];
    assert forall j :: 0 <= j < n ==> r[j] == ps[j];
    assert r[n].body == ps[n].body + [l];
  }

  lemma SubdividedPush(ps: seq<Pending>, l: Line, depth: nat)
    requires LineOk(l) && Stars(l) == depth + 1 && Subdivided(ps, depth)
    ensures ps != [] ==> Subdivided(ps + [Pending(l, [])], depth)
  {
    var r := ps + [Pending(l, [])];
    assert forall j :: 0 <= j < |ps| ==> r[j] == ps[j];
  }

  /** The loop keeps every line once and in order, and the split rules. */
  lemma {:induction false} SectFoldProperties(lines: seq<Line>, st: SectState, depth: nat)
    requires LinesOk(lines) && Sectioned(st, depth)
    ensures Sectioned(SectFold(lines, st, depth), depth)
    ensures var r := SectFold(lines, st, depth);
            r.orphans + Flat(r.pending) == st.orphans + Flat(st.pending) + lines
    decreases |lines|
  {
    if lines == [] {
      assert st.orphans + Flat(st.pending) + lines == st.orphans + Flat(st.pending);
    } else {
      LinesOkTail(lines);
      var next := SectStep(st, lines[0], depth);
      SectStepSectioned(st, lines[0], depth);
      SectStepLines(st, lines[0], depth);
      SectFoldProperties(lines[1..], next, depth);
      ConsAssoc(st.orphans + Flat(st.pending), lines);
    }
  }

  /** `sectionise`'s split of the lines of a section of depth `depth`. */
  function Split(lines: seq<Line>, depth: nat): (r: SectState)
    requires LinesOk(lines)
    ensures Sectioned(r, depth) && r.orphans + Flat(r.pending) == lines
    ensures forall j :: 0 <= j < |r.pending| ==> |r.pending[j].body| < |lines|
  {
    SectFoldProperties(lines, SectState([], []), depth);
    assert [] + Flat([]) + lines == lines;
    var r := SectFold(lines, SectState([], []), depth);
    FlatCovers(r.pending);
    r
  }

  lemma {:induction false} FlatCovers(ps: seq<Pending>)
    ensures forall j :: 0 <= j < |ps| ==> |ps[j].body| < |Flat(ps)|
  {
    if ps != [] {
      FlatCovers(ps[1..]);
      assert forall j :: 0 < j < |ps| ==> ps[j] == ps[1..][j - 1];
    }
  }

  /** A section after `sectionise`: its depth, name, orphaned lines and
      subsections. */
  datatype Sect = Sect(stars: nat, name: string, orphans: seq<Line>, sections: seq<Sect>)

  /** `sectionise`, recursing into the subsections; a subsection's depth is
      the number of stars of its heading line. */
  function Sectionise(stars: nat, name: string, lines: seq<Line>): (r: Sect)
    requires LinesOk(lines)
    ensures r.stars == stars && r.name == name
    ensures r.orphans + Flat(Split(lines, stars).pending) == lines
    ensures |r.sections| == |Split(lines, stars).pending|
    ensures forall j :: 0 <= j < |r.sections| ==>
              var p := Split(lines, stars).pending[j];
              r.sections[j] == Sectionise(Stars(p.header), HeadingName(p.header), p.body)
    decreases |lines|, 1
  {
    var st := Split(lines, stars);
    assert Pends(st.pending, |lines|);
    Sect(stars, name, st.orphans, Subsections(st.pending, |lines|))
  }

  /** The pending sections all hold token lines, and every body is shorter
      than `bound` (the enclosing section's length). */
  predicate Pends(ps: seq<Pending>, bound: nat)
  {
    forall j :: 0 <= j < |ps| ==> LineOk(ps[j].header) && LinesOk(ps[j].body) && |ps[j].body| < bound
  }

  function Subsections(ps: seq<Pending>, bound: nat): (r: seq<Sect>)
    requires Pends(ps, bound)
    ensures |r| == |ps|
    ensures forall j :: 0 <= j < |ps| ==> r[j] == Sectionise(Stars(ps[j].header), HeadingName(ps[j].header), ps[j].body)
    decreases bound, 0, |ps|
  {
    if ps == [] then []
    else
      assert forall j :: 0 <= j < |ps| - 1 ==> ps[1..][j] == ps[j + 1];
      var p := ps[0];
      assert LineOk(p.header) && LinesOk(p.body);
      [Sectionise(Stars(p.header), HeadingName(p.header), p.body)] + Subsections(ps[1..], bound)
  }

  /** Under a section of depth `depth`, a first heading deeper than
      `depth + 1` still opens a subsection, and a following heading of depth
      `depth + 1` opens a sibling of it rather than a parent. */
  lemma DeepFirstHeading(h: Line, l: Line, depth: nat)
    requires LineOk(h) && LineOk(l) && Stars(h) > depth + 1 && Stars(l) == depth + 1
    ensures Split([h, l], depth).orphans == []
    ensures Split([h, l], depth).pending == [Pending(h, []), Pending(l, [])]
  {
    var s1 := SectStep(SectState([], []), h, depth);
    assert s1 == SectState([], [Pending(h, [])]);
    var s2 := SectStep(s1, l, depth);
    assert s2 == SectState([], [Pending(h, []), Pending(l, [])]);
    assert [h, l][1..] == [l] && [l][1..] == [];
    assert SectFold([h, l], SectState([], []), depth) == SectFold([l], s1, depth) == SectFold([], s2, depth);
  }

  // ---------------------------------------------------------------------
  // Section.taggify (lxl.py:710-723) and Main (lxl.py:742-756)

  /** Every line of the section tree is a token line. */
  predicate SectOk(s: Sect)
  {
    LinesOk(s.orphans) && forall j :: 0 <= j < |s.sections| ==> SectOk(s.sections[j])
  }

  predicate AllSectOk(ss: seq<Sect>)
  {
    forall j :: 0 <= j < |ss| ==> SectOk(ss[j])
  }

  lemma {:induction false} SectioniseOk(stars: nat, name: string, lines: seq<Line>)
    requires LinesOk(lines)
    ensures SectOk(Sectionise(stars, name, lines))
    decreases |lines|, 1
  {
    var st := Split(lines, stars);
    FlatCovers(st.pending);
    assert Pends(st.pending, |lines|);
    SubsectionsOk(st.pending, |lines|);
  }

  lemma SubsectionsOk(ps: seq<Pending>, bound: nat)
    requires Pends(ps, bound)
    ensures forall j :: 0 <= j < |ps| ==> SectOk(Subsections(ps, bound)[j])
    decreases bound, 0
  {
    forall j | 0 <= j < |ps|
      ensures SectOk(Subsections(ps, bound)[j])
    {
      SectioniseOk(Stars(ps[j].header), HeadingName(ps[j].header), ps[j].body);
    }
  }

  /** A section after `Section.taggify`: its orphaned lines have become one
      processed `void` environment. */
  datatype Section = Section(stars: nat, name: string, void: Node, sections: seq<Section>)

  function TaggifySection(s: Sect): (r: Result<Section>)
    requires SectOk(s)
    ensures r.Ok? ==> r.value.stars == s.stars && r.value.name == s.name && |r.value.sections| == |s.sections|
    ensures r.Ok? ==> r.value.void.Env? && r.value.void.name == "void"
    ensures r.Ok? ==> NoLinesDeep(r.value.void) && NoItemsDeep(r.value.void)
    decreases s
  {
    var void :- Process("void", [], -1, s.orphans);
    var subs :- TaggifySections(s.sections);
    Ok(Section(s.stars, s.name, void, subs))
  }

  /** A section's `void` is its orphaned lines processed, and a failure to
      process them is the section's failure; once they are processed, the
      section taggifies exactly when its subsections do, and holds what they
      became. */
  lemma TaggifySectionParts(s: Sect)
    requires SectOk(s)
    ensures Process("void", [], -1, s.orphans).Err? ==>
              TaggifySection(s) == Err(Process("void", [], -1, s.orphans).error)
    ensures TaggifySection(s).Ok? ==> Process("void", [], -1, s.orphans) == Ok(TaggifySection(s).value.void)
    ensures Process("void", [], -1, s.orphans).Ok? ==>
              (TaggifySection(s).Ok? <==> TaggifySections(s.sections).Ok?)
    ensures TaggifySection(s).Ok? ==> TaggifySections(s.sections) == Ok(TaggifySection(s).value.sections)
  {
  }

  function TaggifySections(ss: seq<Sect>): (r: Result<seq<Section>>)
    requires AllSectOk(ss)
    ensures r.Ok? ==> |r.value| == |ss|
    decreases ss
  {
    if ss == [] then Ok([])
    else
      HeadTail(ss);
      var x :- TaggifySection(ss[0]);
      var xs :- TaggifySections(ss[1..]);
      Ok([x] + xs)
  }

  /** The subsections taggify exactly when each does, and subsection `j`
      becomes result `j`. */
  lemma {:induction false} TaggifySectionsEach(ss: seq<Sect>)
    requires AllSectOk(ss)
    ensures TaggifySections(ss).Ok? <==> forall j :: 0 <= j < |ss| ==> TaggifySection(ss[j]).Ok?
    ensures TaggifySections(ss).Ok? ==> forall j :: 0 <= j < |ss| ==> TaggifySection(ss[j]) == Ok(TaggifySections(ss).value[j])
    decreases |ss|
  {
    if ss != [] {
      HeadTail(ss);
      TaggifySectionsEach(ss[1..]);
      if TaggifySection(ss[0]).Ok? && TaggifySections(ss[1..]).Err? {
        SectionsRestErr(ss);
      } else if TaggifySection(ss[0]).Ok? {
        SectionsCons(ss);
      }
    }
  }

  /** A failing subsection after the first makes the subsections fail. */
  lemma SectionsRestErr(ss: seq<Sect>)
    requires AllSectOk(ss) && ss != [] && AllSectOk(ss[1..])
    requires TaggifySection(ss[0]).Ok? && TaggifySections(ss[1..]).Err?
    requires exists j :: 0 <= j < |ss| - 1 && TaggifySection(ss[1..][j]).Err?
    ensures TaggifySections(ss).Err?
    ensures exists k :: 0 <= k < |ss| && TaggifySection(ss[k]).Err?
  {
    HeadTail(ss);
    var j :| 0 <= j < |ss| - 1 && TaggifySection(ss[1..][j]).Err?;
    assert TaggifySection(ss[j + 1]).Err?;
  }

  /** The subsections succeed when the first and the rest do, one by one. */
  lemma SectionsCons(ss: seq<Sect>)
    requires AllSectOk(ss) && ss != [] && AllSectOk(ss[1..])
    requires TaggifySection(ss[0]).Ok? && TaggifySections(ss[1..]).Ok?
    requires forall j :: 0 <= j < |ss| - 1 ==> TaggifySection(ss[1..][j]) == Ok(TaggifySections(ss[1..]).value[j])
    ensures TaggifySections(ss).Ok?
    ensures forall k :: 0 <= k < |ss| ==> TaggifySection(ss[k]) == Ok(TaggifySections(ss).value[k])
  {
    var first := TaggifySection(ss[0]);
    var rest := TaggifySections(ss[1..]);
    var r := [first.value] + rest.value;
    assert TaggifySections(ss) == Ok(r);
    forall k | 0 < k < |ss|
      ensures TaggifySection(ss[k]) == Ok(r[k])
    {
      assert ss[k] == ss[1..][k - 1] && r[k] == rest.value[k - 1];
    }
  }

  /** A section whose first line is a subheading has no orphaned lines, and
      its empty `void` fails in `merge`. */
  lemma SubheadingFirst(s: Sect)
    requires SectOk(s) && s.orphans == []
    ensures TaggifySection(s) == Err(EmptyEnvironment)
  {
    ProcessEmpty("void", [], -1);
  }

  /** The document body: the title and the top-level sections. */
  datatype Main = Main(title: string, sections: seq<Section>)

  /** `Main.__init__`: the lines sectionised at depth 0, then every section
      taggified. The lines before the first heading are dropped. */
  function MakeMain(lines: seq<Line>, title: string): (r: Result<Main>)
    requires LinesOk(lines)
    ensures r.Ok? ==> r.value.title == title
                      && |r.value.sections| == |Split(lines, 0).pending|
  {
    var s := Sectionise(0, "main", lines);
    SectioniseOk(0, "main", lines);
    var subs :- TaggifySections(s.sections);
    Ok(Main(title, subs))
  }

  // ---------------------------------------------------------------------
  // The loops themselves

  lemma SectFoldAt(lines: seq<Line>, x: nat, st: SectState, depth: nat)
    requires LinesOk(lines) && x < |lines|
    ensures LinesOk(lines[x..]) && LinesOk(lines[x + 1..]) && LineOk(lines[x])
    ensures SectFold(lines[x..], st, depth) == SectFold(lines[x + 1..], SectStep(st, lines[x], depth), depth)
  {
    assert lines[x..][0] == lines[x] && lines[x..][1..] == lines[x + 1..];
  }

  /** The loop of `sectionise`, with `orphan_mode`. */
  method SectionScan(lines: seq<Line>, depth: nat) returns (orphans: seq<Line>, sections: seq<Pending>)
    requires LinesOk(lines)
    ensures SectState(orphans, sections) == Split(lines, depth)
  {
    orphans, sections := [], [];
    var orphanMode := true;
    assert lines[0..] == lines;
    for x := 0 to |lines|
      invariant orphanMode <==> sections == []
      invariant LinesOk(lines[x..])
      invariant SectFold(lines[x..], SectState(orphans, sections), depth)
                == SectFold(lines, SectState([], []), depth)
    {
      var line := lines[x];
      SectFoldAt(lines, x, SectState(orphans, sections), depth);
      ghost var next := SectStep(SectState(orphans, sections), line, depth);
      if orphanMode {
        if Stars(line) != 0 {
          orphanMode := false;
          sections := sections + [Pending(line, [])];
        } else {
          orphans := orphans + [line];
        }
      } else if Stars(line) != depth + 1 {
        var n := |sections| - 1;
        sections := sections[..n] + [Pending(sections[n].header, sections[n].body + [line])];
      } else {
        sections := sections + [Pending(line, [])];
      }
      assert SectState(orphans, sections) == next;
    }
    assert lines[|lines|..] == [];
  }

  lemma SubsectionsAt(ps: seq<Pending>, bound: nat, k: nat)
    requires Pends(ps, bound)
    requires k < |ps|
    ensures LineOk(ps[k].header) && LinesOk(ps[k].body) && |ps[k].body| < bound
    ensures Pends(ps[k..], bound) && Pends(ps[k + 1..], bound)
    ensures Subsections(ps[k..], bound)
            == [Sectionise(Stars(ps[k].header), HeadingName(ps[k].header), ps[k].body)]
               + Subsections(ps[k + 1..], bound)
  {
    assert ps[k..][0] == ps[k] && ps[k..][1..] == ps[k + 1..];
  }

  /** `Section.sectionise`: the scan, then each subsection sectionised. */
  method SectioniseSection(stars: nat, name: string, lines: seq<Line>) returns (r: Sect)
    requires LinesOk(lines)
    ensures r == Sectionise(stars, name, lines)
    decreases |lines|, 1
  {
    var orphans, pending := SectionScan(lines, stars);
    FlatCovers(pending);
    assert Pends(pending, |lines|);
    var subs: seq<Sect> := [];
    assert pending[0..] == pending;
    for j := 0 to |pending|
      invariant Pends(pending[j..], |lines|)
      invariant subs + Subsections(pending[j..], |lines|) == Subsections(pending, |lines|)
    {
      SubsectionsAt(pending, |lines|, j);
      var p := pending[j];
      var sub := SectioniseSection(Stars(p.header), HeadingName(p.header), p.body);
      Assoc(subs, [sub], Subsections(pending[j + 1..], |lines|));
      subs := subs + [sub];
    }
    assert pending[|pending|..] == [];
    assert subs + [] == subs;
    r := Sect(stars, name, orphans, subs);
  }

  lemma TaggifySectionsAt(ss: seq<Sect>, k: nat)
    requires AllSectOk(ss)
    requires k < |ss|
    ensures SectOk(ss[k])
    ensures AllSectOk(ss[k + 1..])
    ensures TaggifySections(ss[k..]) ==
              match TaggifySection(ss[k])
              case Err(e) => Err(e)
              case Ok(x) => Prepend([x], TaggifySections(ss[k + 1..]))
  {
    assert ss[k..][0] == ss[k] && ss[k..][1..] == ss[k + 1..];
  }

  /** `Section.taggify`: the orphaned lines processed in a `void`
      environment, then each subsection taggified. */
  method TaggifySectionTree(s: Sect) returns (r: Result<Section>)
    requires SectOk(s)
    ensures r == TaggifySection(s)
    decreases s, 1
  {
    var void := ProcessEnv("void", [], -1, s.orphans);
    if void.Err? {
      return Err(void.error);
    }
    var subs := TaggifyEach(s.sections);
    if subs.Err? {
      return Err(subs.error);
    }
    r := Ok(Section(s.stars, s.name, void.value, subs.value));
  }

  /** `for sct in self.sections: sct.taggify()`. */
  method TaggifyEach(ss: seq<Sect>) returns (r: Result<seq<Section>>)
    requires AllSectOk(ss)
    ensures r == TaggifySections(ss)
    decreases ss, 0
  {
    var out: seq<Section> := [];
    PrependNil(TaggifySections(ss));
    assert ss[0..] == ss;
    for k := 0 to |ss|
      invariant TaggifySections(ss) == Prepend(out, TaggifySections(ss[k..]))
    {
      TaggifySectionsAt(ss, k);
      var x := TaggifySectionTree(ss[k]);
      if x.Err? {
        return Err(x.error);
      }
      PrependAssoc(out, [x.value], TaggifySections(ss[k + 1..]));
      out := out + [x.value];
    }
    assert ss[|ss|..] == [];
    assert out + [] == out;
    r := Ok(out);
  }

  /** `Main.__init__`. */
  method NewMain(lines: seq<Line>, title: string) returns (r: Result<Main>)
    requires LinesOk(lines)
    ensures r == MakeMain(lines, title)
  {
    var s := SectioniseSection(0, "main", lines);
    SectioniseOk(0, "main", lines);
    var subs := TaggifyEach(s.sections);
    if subs.Err? {
      return Err(subs.error);
    }
    r := Ok(Main(title, subs.value));
  }
}
