/** Which printed fields of a manifest may hold spaces (`updater.rs`): at most one text per kind of row. */
module ManifestSpaces {
  import opened Text
  import opened StableSort
  import opened Manifest

  // ----- two rows with the same line

  lemma {:induction false} JoinConcat(a: seq<string>, b: seq<string>)
    requires a != [] && b != []
    ensures Join(a + b, ' ') == Join(a, ' ') + " " + Join(b, ' ')
  {
    if |a| == 1 {
      assert (a + b)[1..] == b;
    } else {
      assert (a + b)[1..] == a[1..] + b;
      JoinConcat(a[1..], b);
    }
  }

  /** What stands between two positions of a line, or a word when nothing does. */
  function Between(row: seq<string>, i: nat, j: nat): string
    requires i < j < |row|
  {
    if i + 1 == j then "w" else Join(row[i + 1..j], ' ')
  }

  function First(row: seq<string>, i: nat, j: nat): seq<string>
    requires i < j < |row|
  {
    row[i := "x"][j := Between(row, i, j) + " y"]
  }

  function Second(row: seq<string>, i: nat, j: nat): seq<string>
    requires i < j < |row|
  {
    row[i := "x " + Between(row, i, j)][j := "y"]
  }

  /** The line of a row with new fields at two positions. */
  function Core(row: seq<string>, i: nat, j: nat, a: string, b: string): string
    requires i < j < |row|
  {
    if i + 1 == j then a + " " + b else a + " " + Join(row[i + 1..j], ' ') + " " + b
  }

  lemma JoinCore(row: seq<string>, i: nat, j: nat, a: string, b: string)
    requires i < j < |row|
    ensures Join([a] + row[i + 1..j] + [b], ' ') == Core(row, i, j, a, b)
  {
    var mid := row[i + 1..j];
    if mid == [] {
      assert [a] + mid + [b] == [a] + [b];
      JoinConcat([a], [b]);
    } else {
      JoinConcat([a], mid);
      JoinConcat([a] + mid, [b]);
    }
  }

  lemma JoinSpan(row: seq<string>, i: nat, j: nat, a: string, b: string)
    requires i < j < |row|
    ensures Join(row[i := a][j := b], ' ')
         == (if i == 0 then "" else Join(row[..i], ' ') + " ")
            + Core(row, i, j, a, b)
            + (if j + 1 == |row| then "" else " " + Join(row[j + 1..], ' '))
  {
    hide Join, Core;
    var span := [a] + row[i + 1..j] + [b];
    var left, right := row[..i], row[j + 1..];
    assert row[i := a][j := b] == left + span + right;
    JoinCore(row, i, j, a, b);
    if left == [] {
      assert left + span == span;
    } else {
      JoinConcat(left, span);
    }
    if right == [] {
      assert left + span + right == left + span;
    } else {
      JoinConcat(left + span, right);
    }
  }

  lemma SameCore(row: seq<string>, i: nat, j: nat)
    requires i < j < |row|
    ensures var w := Between(row, i, j);
      Core(row, i, j, "x", w + " y") == Core(row, i, j, "x " + w, "y")
  {
    var w := Between(row, i, j);
    if i + 1 == j {
      assert "x" + " " + ("w" + " y") == ("x " + "w") + " " + "y";
    } else {
      assert "x" + " " + w + " " + (w + " y") == ("x " + w) + " " + w + " " + "y";
    }
  }

  /** Any two positions of any row: two different rows with the same line. */
  lemma RowsCollide(row: seq<string>, i: nat, j: nat)
    requires i < j < |row|
    ensures Join(First(row, i, j), ' ') == Join(Second(row, i, j), ' ') && First(row, i, j)[i] != Second(row, i, j)[i]
  {
    hide Join, Core;
    var w := Between(row, i, j);
    JoinSpan(row, i, j, "x", w + " y");
    JoinSpan(row, i, j, "x " + w, "y");
    SameCore(row, i, j);
  }

  lemma CollisionIsSpaced(row: seq<string>, i: nat, j: nat, free: set<nat>)
    requires i < j < |row| && Spaced(row, free) && i in free && j in free
    ensures Spaced(First(row, i, j), free) && Spaced(Second(row, i, j), free)
  {
    var w := Between(row, i, j);
    assert Clean(w, {'\n'}) by {
      if i + 1 < j { JoinHasNoNewline(row[i + 1..j]); }
    }
  }

  // ----- artifacts and deltas with those rows

  function WithText(a: Artifact, i: nat, s: string): Artifact {
    if i == 0 then a.(triple := s)
    else if i == 1 then a.(libc := s)
    else if i == 3 then a.(sha256 := s)
    else a.(sig := s)
  }

  function WithDeltaText(d: Delta, i: nat, s: string): Delta {
    if i == 0 then d.(triple := s)
    else if i == 1 then d.(fromVersion := s)
    else if i == 2 then d.(toVersion := s)
    else if i == 3 then d.(algorithm := s)
    else d.(resultSha256 := s)
  }

  lemma WithTextFields(a: Artifact, i: nat, s: string)
    requires i in ARTIFACT_TEXTS
    ensures i < |ArtifactFields(a)| == 6 && ArtifactFields(WithText(a, i, s)) == ArtifactFields(a)[i := s]
  {
  }

  lemma WithDeltaTextFields(d: Delta, i: nat, s: string)
    requires i in DELTA_TEXTS
    ensures i < |DeltaFields(d)| == 6 && DeltaFields(WithDeltaText(d, i, s)) == DeltaFields(d)[i := s]
  {
  }

  /** The same manifest with one artifact, or one delta. */
  function WithArtifact(m: Manifest, a: Artifact): Manifest { m.(artifacts := [a]) }
  function WithDelta(m: Manifest, d: Delta): Manifest { m.(deltas := [d]) }

  lemma OneArtifactLine(m: Manifest, a: Artifact)
    ensures Lines(Rows(WithArtifact(m, a)))
         == Lines(HeaderRows(m)) + [Join(["artifact"] + ArtifactFields(a), ' ')]
            + Lines(Tagged("delta", Map(SortedDeltas(m), DeltaFields)))
  {
    SortOne(a, ArtifactKey);
  }

  lemma OneDeltaLine(m: Manifest, d: Delta)
    ensures Lines(Rows(WithDelta(m, d)))
         == Lines(HeaderRows(m)) + Lines(Tagged("artifact", Map(SortedArtifacts(m), ArtifactFields)))
            + [Join(["delta"] + DeltaFields(d), ' ')]
  {
    SortOne(d, DeltaKey);
  }

  lemma EncodeWithArtifact(m: Manifest, a: Artifact, b: Artifact)
    requires Join(ArtifactFields(a), ' ') == Join(ArtifactFields(b), ' ')
    ensures Encode(Rows(WithArtifact(m, a))) == Encode(Rows(WithArtifact(m, b)))
  {
    hide Join, Rows, Lines;
    OneArtifactLine(m, a);
    OneArtifactLine(m, b);
    TagLine("artifact", ArtifactFields(a));
    TagLine("artifact", ArtifactFields(b));
  }

  lemma EncodeWithDelta(m: Manifest, d: Delta, e: Delta)
    requires Join(DeltaFields(d), ' ') == Join(DeltaFields(e), ' ')
    ensures Encode(Rows(WithDelta(m, d))) == Encode(Rows(WithDelta(m, e)))
  {
    hide Join, Rows, Lines;
    OneDeltaLine(m, d);
    OneDeltaLine(m, e);
    TagLine("delta", DeltaFields(d));
    TagLine("delta", DeltaFields(e));
  }

  /** For any two text positions of an artifact, in any manifest: two artifacts that differ in these fields only and
      sign the same bytes. */
  lemma ArtifactsCollide(m: Manifest, a: Artifact, i: nat, j: nat) returns (a1: Artifact, a2: Artifact)
    requires i in ARTIFACT_TEXTS && j in ARTIFACT_TEXTS && i < j
    ensures |ArtifactFields(a)| == 6
    ensures ArtifactFields(a1) == First(ArtifactFields(a), i, j) && ArtifactFields(a2) == Second(ArtifactFields(a), i, j)
    ensures ArtifactFields(a1) != ArtifactFields(a2)
    ensures Encode(Rows(WithArtifact(m, a1))) == Encode(Rows(WithArtifact(m, a2)))
  {
    hide Join, WithText, ArtifactFields, Encode, Rows;
    WithTextFields(a, i, "");
    WithTextFields(a, j, "");
    var row := ArtifactFields(a);
    var w := Between(row, i, j);
    WithTextFields(a, i, "x");
    WithTextFields(WithText(a, i, "x"), j, w + " y");
    WithTextFields(a, i, "x " + w);
    WithTextFields(WithText(a, i, "x " + w), j, "y");
    a1 := WithText(WithText(a, i, "x"), j, w + " y");
    a2 := WithText(WithText(a, i, "x " + w), j, "y");
    RowsCollide(row, i, j);
    EncodeWithArtifact(m, a1, a2);
  }

  /** And for any two text positions of a delta. */
  lemma DeltasCollide(m: Manifest, d: Delta, i: nat, j: nat) returns (d1: Delta, d2: Delta)
    requires i in DELTA_TEXTS && j in DELTA_TEXTS && i < j
    ensures |DeltaFields(d)| == 6
    ensures DeltaFields(d1) == First(DeltaFields(d), i, j) && DeltaFields(d2) == Second(DeltaFields(d), i, j)
    ensures DeltaFields(d1) != DeltaFields(d2)
    ensures Encode(Rows(WithDelta(m, d1))) == Encode(Rows(WithDelta(m, d2)))
  {
    hide Join, WithDeltaText, DeltaFields, Encode, Rows;
    WithDeltaTextFields(d, i, "");
    WithDeltaTextFields(d, j, "");
    var row := DeltaFields(d);
    var w := Between(row, i, j);
    WithDeltaTextFields(d, i, "x");
    WithDeltaTextFields(WithDeltaText(d, i, "x"), j, w + " y");
    WithDeltaTextFields(d, i, "x " + w);
    WithDeltaTextFields(WithDeltaText(d, i, "x " + w), j, "y");
    d1 := WithDeltaText(WithDeltaText(d, i, "x"), j, w + " y");
    d2 := WithDeltaText(WithDeltaText(d, i, "x " + w), j, "y");
    RowsCollide(row, i, j);
    EncodeWithDelta(m, d1, d2);
  }

  // ----- the exact condition

  /** The bytes determine everything printed, for all manifests whose spaces stay at these positions. */
  ghost predicate Determined(fa: set<nat>, fd: set<nat>) {
    forall m: Manifest, n: Manifest ::
      PlainBut(m, fa, fd) && PlainBut(n, fa, fd) && Encode(Rows(m)) == Encode(Rows(n)) ==> PrintedOf(m) == PrintedOf(n)
  }

  const ARTIFACT: Artifact := Artifact("t", "u", "h", 0, "l", false, "s")
  const DELTA: Delta := Delta("f", "v", "t", "a", "u", "h", 0, "r")
  const EMPTY: Manifest := Manifest(0, "", "", 0, "", "", "", 0, [], [], 0)

  lemma ArtifactsNotDetermined(fa: set<nat>, fd: set<nat>, i: nat, j: nat)
    requires fa <= ARTIFACT_TEXTS && i in fa && j in fa && i < j
    ensures !Determined(fa, fd)
  {
    hide Encode, Rows, First, Second, ArtifactFields, Spaced, PrintedOf;
    var a1, a2 := ArtifactsCollide(EMPTY, ARTIFACT, i, j);
    PlainArtifact(fa);
    CollisionIsSpaced(ArtifactFields(ARTIFACT), i, j, fa);
    var m, n := WithArtifact(EMPTY, a1), WithArtifact(EMPTY, a2);
    assert PlainBut(m, fa, fd) && PlainBut(n, fa, fd);
    PrintedArtifact(EMPTY, a1);
    PrintedArtifact(EMPTY, a2);
  }

  lemma DeltasNotDetermined(fa: set<nat>, fd: set<nat>, i: nat, j: nat)
    requires fd <= DELTA_TEXTS && i in fd && j in fd && i < j
    ensures !Determined(fa, fd)
  {
    hide Encode, Rows, First, Second, DeltaFields, Spaced, PrintedOf;
    var d1, d2 := DeltasCollide(EMPTY, DELTA, i, j);
    PlainDelta(fd);
    CollisionIsSpaced(DeltaFields(DELTA), i, j, fd);
    var m, n := WithDelta(EMPTY, d1), WithDelta(EMPTY, d2);
    assert PlainBut(m, fa, fd) && PlainBut(n, fa, fd);
    PrintedDelta(EMPTY, d1);
    PrintedDelta(EMPTY, d2);
  }

  lemma PlainArtifact(fa: set<nat>)
    ensures Spaced(ArtifactFields(ARTIFACT), fa)
  {
    assert Decimal(0) == "0";
  }

  lemma PlainDelta(fd: set<nat>)
    ensures Spaced(DeltaFields(DELTA), fd)
  {
    assert Decimal(0) == "0";
  }

  lemma PrintedArtifact(m: Manifest, a: Artifact)
    ensures PrintedOf(WithArtifact(m, a)).artifacts == [ArtifactFields(a)]
  {
    SortOne(a, ArtifactKey);
  }

  lemma PrintedDelta(m: Manifest, d: Delta)
    ensures PrintedOf(WithDelta(m, d)).deltas == [DeltaFields(d)]
  {
    SortOne(d, DeltaKey);
  }

  /** Free of newlines, the bytes determine everything printed exactly when at most one text per kind of row may
      hold spaces; header values always may. */
  lemma SpacesAllowedIff(fa: set<nat>, fd: set<nat>)
    requires fa <= ARTIFACT_TEXTS && fd <= DELTA_TEXTS
    ensures Determined(fa, fd) <==> AtMostOne(fa) && AtMostOne(fd)
  {
    hide PlainBut, Encode, Rows, PrintedOf;
    if AtMostOne(fa) && AtMostOne(fd) {
      forall m: Manifest, n: Manifest | PlainBut(m, fa, fd) && PlainBut(n, fa, fd) && Encode(Rows(m)) == Encode(Rows(n))
        ensures PrintedOf(m) == PrintedOf(n)
      {
        PrintedDetermined(m, n, fa, fd);
      }
    } else if !AtMostOne(fa) {
      var i, j :| i in fa && j in fa && i != j;
      ArtifactsNotDetermined(fa, fd, if i < j then i else j, if i < j then j else i);
    } else {
      var i, j :| i in fd && j in fd && i != j;
      DeltasNotDetermined(fa, fd, if i < j then i else j, if i < j then j else i);
    }
  }

  /** The shape checks leave triple and libc alone, so this pair passes whenever its artifact does. */
  lemma SpaceMovesBetweenFields(m: Manifest, a: Artifact)
    ensures var a1, a2 := a.(triple := "x", libc := "w y"), a.(triple := "x w", libc := "y");
      Encode(Rows(WithArtifact(m, a1))) == Encode(Rows(WithArtifact(m, a2))) && ArtifactFields(a1) != ArtifactFields(a2)
  {
    hide Encode, Rows, Join;
    var row := ArtifactFields(a);
    var a1, a2 := a.(triple := "x", libc := "w y"), a.(triple := "x w", libc := "y");
    RowsCollide(row, 0, 1);
    assert "w" + " y" == "w y" && "x " + "w" == "x w";
    assert ArtifactFields(a1) == First(row, 0, 1) && ArtifactFields(a2) == Second(row, 0, 1);
    EncodeWithArtifact(m, a1, a2);
  }
}
