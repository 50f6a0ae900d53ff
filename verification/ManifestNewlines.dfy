/** A printed text of a manifest that may hold newlines beside spaces (`updater.rs`) can hold the end of one line and
    the start of the next, so the bytes do not say how many there are. */
module ManifestNewlines {
  import opened Text
  import opened StableSort
  import opened Manifest
  import opened ManifestSpaces

  // ----- one row that prints two lines

  /** The field at `i` that holds the rest of its own line and the start of the line of `other`. */
  function Swallowed(tag: string, row: seq<string>, other: seq<string>, i: nat): string
    requires i < |row| == |other|
  {
    Join(row[i..], ' ') + "\n" + tag + " " + Join(other[..i + 1], ' ')
  }

  lemma JoinCut(row: seq<string>, i: nat)
    requires 0 < i < |row|
    ensures Join(row, ' ') == Join(row[..i], ' ') + " " + Join(row[i..], ' ')
  {
    hide Join;
    JoinConcat(row[..i], row[i..]);
    assert row == row[..i] + row[i..];
  }

  /** The line up to and with field `i`. */
  lemma JoinTo(row: seq<string>, i: nat, x: string)
    requires i < |row|
    ensures Join(row[..i] + [x], ' ') == (if i == 0 then "" else Join(row[..i], ' ') + " ") + x
  {
    if i > 0 {
      JoinConcat(row[..i], [x]);
    } else {
      assert row[..i] + [x] == [x];
    }
  }

  lemma JoinFrom(row: seq<string>, i: nat)
    requires i < |row|
    ensures Join(row, ' ') == (if i == 0 then "" else Join(row[..i], ' ') + " ") + Join(row[i..], ' ')
  {
    if i > 0 {
      JoinCut(row, i);
    } else {
      assert row[0..] == row;
    }
  }

  lemma TwoLinesInOne(tag: string, row: seq<string>, other: seq<string>, i: nat)
    requires i < |row| == |other| && other[i + 1..] == row[i + 1..]
    ensures Join(row[i := Swallowed(tag, row, other, i)], ' ') == Join(row, ' ') + "\n" + tag + " " + Join(other, ' ')
  {
    hide Join;
    var x := Swallowed(tag, row, other, i);
    var both := row[i := x];
    JoinTo(row, i, x);
    JoinFrom(row, i);
    assert both[..i + 1] == row[..i] + [x];
    if i + 1 < |row| {
      JoinCut(both, i + 1);
      JoinCut(other, i + 1);
      assert both[i + 1..] == row[i + 1..];
    } else {
      assert both[..i + 1] == both && other[..i + 1] == other;
    }
  }

  lemma {:induction false} UnlinesTwo(before: seq<string>, first: string, second: string, after: seq<string>)
    ensures Unlines(before + [first + "\n" + second] + after) == Unlines(before + [first, second] + after)
  {
    if before == [] {
      var one, two := [first + "\n" + second] + after, [first, second] + after;
      assert before + [first + "\n" + second] + after == one && before + [first, second] + after == two;
      assert one[1..] == after && two[1..] == [second] + after && two[1..][1..] == after;
      assert Unlines(two) == first + "\n" + (second + "\n" + Unlines(after));
    } else {
      UnlinesTwo(before[1..], first, second, after);
      assert (before + [first + "\n" + second] + after)[1..] == before[1..] + [first + "\n" + second] + after;
      assert (before + [first, second] + after)[1..] == before[1..] + [first, second] + after;
    }
  }

  lemma SortTwo<T>(x: T, y: T, key: T -> Key)
    requires KeyLeq(key(x), key(y))
    ensures Sort([x, y], key) == [x, y]
  {
    SortOne(y, key);
    assert [x, y][1..] == [y];
  }

  // ----- one artifact, one delta

  lemma TwoArtifactLines(m: Manifest, a: Artifact, b: Artifact)
    requires KeyLeq(ArtifactKey(a), ArtifactKey(b))
    ensures Lines(Rows(m.(artifacts := [a, b])))
         == Lines(HeaderRows(m))
            + [Join(["artifact"] + ArtifactFields(a), ' '), Join(["artifact"] + ArtifactFields(b), ' ')]
            + Lines(Tagged("delta", Map(SortedDeltas(m), DeltaFields)))
  {
    SortTwo(a, b, ArtifactKey);
  }

  lemma TwoDeltaLines(m: Manifest, d: Delta, e: Delta)
    requires KeyLeq(DeltaKey(d), DeltaKey(e))
    ensures Lines(Rows(m.(deltas := [d, e])))
         == Lines(HeaderRows(m)) + Lines(Tagged("artifact", Map(SortedArtifacts(m), ArtifactFields)))
            + [Join(["delta"] + DeltaFields(d), ' '), Join(["delta"] + DeltaFields(e), ' ')]
  {
    SortTwo(d, e, DeltaKey);
  }

  lemma ArtifactSwallows(a: Artifact, triple: string, i: nat) returns (c: Artifact)
    requires i in ARTIFACT_TEXTS && Leq(a.triple, triple)
    ensures var b := a.(triple := triple);
      && KeyLeq(ArtifactKey(a), ArtifactKey(b)) && |ArtifactFields(a)| == |ArtifactFields(b)| == 6
      && ArtifactFields(b)[i + 1..] == ArtifactFields(a)[i + 1..]
      && ArtifactFields(c)
         == ArtifactFields(a)[i := Swallowed("artifact", ArtifactFields(a), ArtifactFields(b), i)]
  {
    hide Join, Swallowed, Decimal;
    var x := Swallowed("artifact", ArtifactFields(a), ArtifactFields(a.(triple := triple)), i);
    c := WithText(a, i, x);
    WithTextFields(a, i, x);
  }

  lemma ArtifactLines(m: Manifest, a: Artifact, b: Artifact, c: Artifact)
    requires KeyLeq(ArtifactKey(a), ArtifactKey(b))
    requires Join(ArtifactFields(c), ' ')
          == Join(ArtifactFields(a), ' ') + "\n" + "artifact" + " " + Join(ArtifactFields(b), ' ')
    ensures Encode(Rows(WithArtifact(m, c))) == Encode(Rows(m.(artifacts := [a, b])))
  {
    hide Join, ArtifactFields, Rows, Lines, Unlines, ArtifactKey, KeyLeq;
    SixFields(a);
    SixFields(b);
    SixFields(c);
    TagLine("artifact", ArtifactFields(a));
    TagLine("artifact", ArtifactFields(b));
    TagLine("artifact", ArtifactFields(c));
    OneArtifactLine(m, c);
    TwoArtifactLines(m, a, b);
    var first, second := Join(["artifact"] + ArtifactFields(a), ' '), Join(["artifact"] + ArtifactFields(b), ' ');
    assert Join(["artifact"] + ArtifactFields(c), ' ') == first + "\n" + second;
    UnlinesTwo(Lines(HeaderRows(m)), first, second, Lines(Tagged("delta", Map(SortedDeltas(m), DeltaFields))));
  }

  /** For any text position of an artifact, in any manifest: one artifact that signs the same bytes as two, the second
      of a later triple. */
  lemma ArtifactHoldsTwo(m: Manifest, a: Artifact, triple: string, i: nat) returns (c: Artifact)
    requires i in ARTIFACT_TEXTS && Leq(a.triple, triple)
    ensures |ArtifactFields(a)| == |ArtifactFields(a.(triple := triple))| == 6
    ensures ArtifactFields(c)
         == ArtifactFields(a)[i := Swallowed("artifact", ArtifactFields(a), ArtifactFields(a.(triple := triple)), i)]
    ensures Encode(Rows(WithArtifact(m, c))) == Encode(Rows(m.(artifacts := [a, a.(triple := triple)])))
  {
    hide Join, Swallowed, ArtifactFields, Encode, Rows, ArtifactKey, KeyLeq;
    c := ArtifactSwallows(a, triple, i);
    TwoLinesInOne("artifact", ArtifactFields(a), ArtifactFields(a.(triple := triple)), i);
    ArtifactLines(m, a, a.(triple := triple), c);
  }

  lemma DeltaSwallows(d: Delta, triple: string, i: nat) returns (c: Delta)
    requires i in DELTA_TEXTS && d.triple != triple && Leq(d.triple, triple)
    ensures var e := d.(triple := triple);
      && KeyLeq(DeltaKey(d), DeltaKey(e)) && |DeltaFields(d)| == |DeltaFields(e)| == 6
      && DeltaFields(e)[i + 1..] == DeltaFields(d)[i + 1..]
      && DeltaFields(c) == DeltaFields(d)[i := Swallowed("delta", DeltaFields(d), DeltaFields(e), i)]
  {
    hide Join, Swallowed, Decimal;
    var x := Swallowed("delta", DeltaFields(d), DeltaFields(d.(triple := triple)), i);
    c := WithDeltaText(d, i, x);
    WithDeltaTextFields(d, i, x);
  }

  lemma DeltaLines(m: Manifest, d: Delta, e: Delta, c: Delta)
    requires KeyLeq(DeltaKey(d), DeltaKey(e))
    requires Join(DeltaFields(c), ' ')
          == Join(DeltaFields(d), ' ') + "\n" + "delta" + " " + Join(DeltaFields(e), ' ')
    ensures Encode(Rows(WithDelta(m, c))) == Encode(Rows(m.(deltas := [d, e])))
  {
    hide Join, DeltaFields, Rows, Lines, Unlines, DeltaKey, KeyLeq;
    SixDeltaFields(d);
    SixDeltaFields(e);
    SixDeltaFields(c);
    TagLine("delta", DeltaFields(d));
    TagLine("delta", DeltaFields(e));
    TagLine("delta", DeltaFields(c));
    OneDeltaLine(m, c);
    TwoDeltaLines(m, d, e);
    var first, second := Join(["delta"] + DeltaFields(d), ' '), Join(["delta"] + DeltaFields(e), ' ');
    assert Join(["delta"] + DeltaFields(c), ' ') == first + "\n" + second;
    var before := Lines(HeaderRows(m)) + Lines(Tagged("artifact", Map(SortedArtifacts(m), ArtifactFields)));
    UnlinesTwo(before, first, second, []);
    assert before + [first + "\n" + second] + [] == before + [first + "\n" + second];
    assert before + [first, second] + [] == before + [first, second];
  }

  /** And for any text position of a delta. */
  lemma DeltaHoldsTwo(m: Manifest, d: Delta, triple: string, i: nat) returns (c: Delta)
    requires i in DELTA_TEXTS && d.triple != triple && Leq(d.triple, triple)
    ensures |DeltaFields(d)| == |DeltaFields(d.(triple := triple))| == 6
    ensures DeltaFields(c)
         == DeltaFields(d)[i := Swallowed("delta", DeltaFields(d), DeltaFields(d.(triple := triple)), i)]
    ensures Encode(Rows(WithDelta(m, c))) == Encode(Rows(m.(deltas := [d, d.(triple := triple)])))
  {
    hide Join, Swallowed, DeltaFields, Encode, Rows, DeltaKey, KeyLeq;
    c := DeltaSwallows(d, triple, i);
    TwoLinesInOne("delta", DeltaFields(d), DeltaFields(d.(triple := triple)), i);
    DeltaLines(m, d, d.(triple := triple), c);
  }

  // ----- the exact condition

  /** As `Spaced`, but the fields at the positions of `loose` may hold anything. */
  ghost predicate Loose(row: seq<string>, free: set<nat>, loose: set<nat>) {
    forall i :: 0 <= i < |row| ==>
      i in loose || (Clean(row[i], {'\n'}) && (i !in free ==> Clean(row[i], {' '})))
  }

  /** No newline in header values, and fields as `Loose` says. */
  ghost predicate LooseBut(m: Manifest, fa: set<nat>, la: set<nat>, fd: set<nat>, ld: set<nat>) {
    && (forall i :: 0 <= i < 5 ==> Clean(HeaderTexts(m)[i], {'\n'}))
    && (forall a :: a in m.artifacts ==> Loose(ArtifactFields(a), fa, la))
    && (forall d :: d in m.deltas ==> Loose(DeltaFields(d), fd, ld))
  }

  ghost predicate LooselyDetermined(fa: set<nat>, la: set<nat>, fd: set<nat>, ld: set<nat>) {
    forall m: Manifest, n: Manifest ::
      LooseBut(m, fa, la, fd, ld) && LooseBut(n, fa, la, fd, ld) && Encode(Rows(m)) == Encode(Rows(n)) ==>
        PrintedOf(m) == PrintedOf(n)
  }

  lemma PrintedCount(m: Manifest)
    ensures |PrintedOf(m).artifacts| == |m.artifacts| && |PrintedOf(m).deltas| == |m.deltas|
  {
    SortIsStable(m.artifacts, ArtifactKey);
    SortIsStable(m.deltas, DeltaKey);
    assert |Sort(m.artifacts, ArtifactKey)| == |multiset(m.artifacts)| == |m.artifacts|;
    assert |Sort(m.deltas, DeltaKey)| == |multiset(m.deltas)| == |m.deltas|;
  }

  lemma PlainArtifacts()
    ensures Spaced(ArtifactFields(ARTIFACT), {}) && Spaced(ArtifactFields(ARTIFACT.(triple := "u")), {})
    ensures Leq(ARTIFACT.triple, "u")
  {
    assert Decimal(0) == "0";
  }

  lemma PlainDeltas()
    ensures Spaced(DeltaFields(DELTA), {}) && Spaced(DeltaFields(DELTA.(triple := "u")), {})
    ensures DELTA.triple != "u" && Leq(DELTA.triple, "u")
  {
    assert Decimal(0) == "0";
  }

  lemma EmptyIsPlain()
    ensures forall i :: 0 <= i < 5 ==> Clean(HeaderTexts(EMPTY)[i], {'\n'})
  {
  }

  lemma LooseArtifact(fa: set<nat>, la: set<nat>, fd: set<nat>, ld: set<nat>, i: nat)
    requires i in la && i in ARTIFACT_TEXTS
    ensures !LooselyDetermined(fa, la, fd, ld)
  {
    hide Encode, Clean, Rows, ArtifactFields, PrintedOf, Swallowed, Spaced;
    var a, b := ARTIFACT, ARTIFACT.(triple := "u");
    PlainArtifacts();
    var c := ArtifactHoldsTwo(EMPTY, a, "u", i);
    var m, n := WithArtifact(EMPTY, c), EMPTY.(artifacts := [a, b]);
    SpacedIsLoose(ArtifactFields(a), fa, la);
    SpacedIsLoose(ArtifactFields(b), fa, la);
    LooseAt(ArtifactFields(a), fa, la, i, ArtifactFields(c)[i]);
    assert ArtifactFields(a)[i := ArtifactFields(c)[i]] == ArtifactFields(c);
    EmptyIsPlain();
    assert HeaderTexts(m) == HeaderTexts(EMPTY) && HeaderTexts(n) == HeaderTexts(EMPTY);
    assert LooseBut(m, fa, la, fd, ld) && LooseBut(n, fa, la, fd, ld);
    PrintedCount(m);
    PrintedCount(n);
  }

  lemma LooseDelta(fa: set<nat>, la: set<nat>, fd: set<nat>, ld: set<nat>, i: nat)
    requires i in ld && i in DELTA_TEXTS
    ensures !LooselyDetermined(fa, la, fd, ld)
  {
    hide Encode, Clean, Rows, DeltaFields, PrintedOf, Swallowed, Spaced;
    var d, e := DELTA, DELTA.(triple := "u");
    PlainDeltas();
    var c := DeltaHoldsTwo(EMPTY, d, "u", i);
    var m, n := WithDelta(EMPTY, c), EMPTY.(deltas := [d, e]);
    SpacedIsLoose(DeltaFields(d), fd, ld);
    SpacedIsLoose(DeltaFields(e), fd, ld);
    LooseAt(DeltaFields(d), fd, ld, i, DeltaFields(c)[i]);
    assert DeltaFields(d)[i := DeltaFields(c)[i]] == DeltaFields(c);
    EmptyIsPlain();
    assert HeaderTexts(m) == HeaderTexts(EMPTY) && HeaderTexts(n) == HeaderTexts(EMPTY);
    assert LooseBut(m, fa, la, fd, ld) && LooseBut(n, fa, la, fd, ld);
    PrintedCount(m);
    PrintedCount(n);
  }

  lemma SpacedIsLoose(row: seq<string>, free: set<nat>, loose: set<nat>)
    requires Spaced(row, {})
    ensures Loose(row, free, loose)
  {
  }

  lemma LooseAt(row: seq<string>, free: set<nat>, loose: set<nat>, i: nat, x: string)
    requires i < |row| && i in loose && Loose(row, free, loose)
    ensures Loose(row[i := x], free, loose)
  {
    hide Clean;
  }

  lemma LooseIsSpaced(row: seq<string>, free: set<nat>)
    ensures Loose(row, free, {}) <==> Spaced(row, free)
  {
    hide Clean;
  }

  lemma LooseIsPlain(m: Manifest, fa: set<nat>, fd: set<nat>)
    ensures LooseBut(m, fa, {}, fd, {}) <==> PlainBut(m, fa, fd)
  {
    hide Loose, Spaced, Clean;
    forall a | a in m.artifacts ensures Loose(ArtifactFields(a), fa, {}) <==> Spaced(ArtifactFields(a), fa) {
      LooseIsSpaced(ArtifactFields(a), fa);
    }
    forall d | d in m.deltas ensures Loose(DeltaFields(d), fd, {}) <==> Spaced(DeltaFields(d), fd) {
      LooseIsSpaced(DeltaFields(d), fd);
    }
  }

  /** Beside header values free of newlines, the bytes determine everything printed exactly when no text of an artifact
      or a delta may hold anything at all, and at most one per kind of row may hold spaces. */
  lemma NewlinesAllowedIff(fa: set<nat>, la: set<nat>, fd: set<nat>, ld: set<nat>)
    requires fa <= ARTIFACT_TEXTS && la <= ARTIFACT_TEXTS && fd <= DELTA_TEXTS && ld <= DELTA_TEXTS
    ensures LooselyDetermined(fa, la, fd, ld) <==> la == {} && ld == {} && AtMostOne(fa) && AtMostOne(fd)
  {
    if i :| i in la {
      LooseArtifact(fa, la, fd, ld, i);
    } else if i :| i in ld {
      LooseDelta(fa, la, fd, ld, i);
    } else {
      assert la == {} && ld == {};
      SpacesAllowedIff(fa, fd);
      hide LooseBut, PlainBut, Encode, Rows, PrintedOf, AtMostOne;
      forall m: Manifest ensures LooseBut(m, fa, {}, fd, {}) <==> PlainBut(m, fa, fd) { LooseIsPlain(m, fa, fd); }
    }
  }
}
