/**
 * Artifact coordinates `groupId:artifactId:version:type[:classifier]` as the remap goal
 * reads them from its configuration (RemapMojo.resolveArtifact(String)), and the test
 * that decides whether the `srgIn` setting names such a coordinate or a file path.
 *
 * The parser follows Java's `String.split(":")`: the string is cut at every ':', and
 * because the limit is 0, empty fields at the end are dropped; a string without any
 * ':' is returned whole, as a single field.
 */
module Coordinates {
  import opened Wrappers

  datatype Coordinate = Coordinate(
    groupId: string,
    artifactId: string,
    version: string,
    artifactType: string,
    classifier: Option<string>)

  datatype CoordinateError = WrongFieldCount(count: nat)

  // ---------------------------------------------------------------------------
  // Java's String.split(":")
  // ---------------------------------------------------------------------------

  /** The pieces between the ':' characters of `s`, empty pieces included. */
  function Fields(s: string): (r: seq<string>)
    ensures |r| >= 1
  {
    if s == [] then [""]
    else
      var rest := Fields(s[1..]);
      if s[0] == ':' then [""] + rest else [[s[0]] + rest[0]] + rest[1..]
  }

  /** The pieces put back together with ':' between them. */
  function Join(ps: seq<string>): string
    requires |ps| >= 1
  {
    if |ps| == 1 then ps[0] else ps[0] + ":" + Join(ps[1..])
  }

  /** The empty pieces at the end of `ps` removed, as `split` does with limit 0. */
  function DropTrailingEmpty(ps: seq<string>): (r: seq<string>)
    ensures |r| <= |ps| && r == ps[..|r|]
    ensures forall i :: |r| <= i < |ps| ==> ps[i] == ""
    ensures r == [] || r[|r| - 1] != ""
  {
    if ps == [] then []
    else if ps[|ps| - 1] == "" then DropTrailingEmpty(ps[..|ps| - 1])
    else ps
  }

  /** `s.split(":")` in Java. */
  function JavaSplit(s: string): seq<string> {
    if ':' !in s then [s] else DropTrailingEmpty(Fields(s))
  }

  predicate ColonFree(p: string) {
    ':' !in p
  }

  function Empties(k: nat): seq<string> {
    seq(k, _ => "")
  }

  function Colons(k: nat): string {
    seq(k, _ => ':')
  }

  /** Every piece of `s` is free of ':' and joining the pieces gives `s` back. */
  lemma {:induction false} JoinFields(s: string)
    ensures Join(Fields(s)) == s
    ensures forall p <- Fields(s) :: ColonFree(p)
  {
    if s != [] {
      JoinFields(s[1..]);
      var rest := Fields(s[1..]);
      if s[0] == ':' {
        assert Fields(s)[1..] == rest;
        assert s == [':'] + s[1..];
      } else {
        var r := Fields(s);
        assert r[0] == [s[0]] + rest[0];
        if |rest| == 1 {
          assert s == [s[0]] + rest[0];
        } else {
          assert r[1..] == rest[1..];
          assert Join(rest) == rest[0] + ":" + Join(rest[1..]);
          assert s == [s[0]] + rest[0] + ":" + Join(rest[1..]);
        }
        assert rest[0] in rest;
        assert ColonFree(r[0]);
        assert r == [r[0]] + rest[1..];
        forall p <- r ensures ColonFree(p) {
          if p != r[0] {
            assert p in rest[1..];
            assert p in rest;
          }
        }
      }
    }
  }

  /** A colon-free prefix joins the first piece of what follows it. */
  lemma {:induction false} FieldsOfColonFreePrefix(x: string, rest: string)
    requires ColonFree(x)
    ensures Fields(x + rest) == [x + Fields(rest)[0]] + Fields(rest)[1..]
  {
    if x == [] {
      assert x + rest == rest;
      assert x + Fields(rest)[0] == Fields(rest)[0];
      assert [Fields(rest)[0]] + Fields(rest)[1..] == Fields(rest);
    } else {
      FieldsOfColonFreePrefix(x[1..], rest);
      assert (x + rest)[1..] == x[1..] + rest;
      assert (x + rest)[0] == x[0];
      assert [x[0]] + (x[1..] + Fields(rest)[0]) == x + Fields(rest)[0];
    }
  }

  /** Cutting the join of colon-free pieces gives the pieces back. */
  lemma {:induction false} FieldsJoin(ps: seq<string>)
    requires |ps| >= 1
    requires forall p <- ps :: ColonFree(p)
    ensures Fields(Join(ps)) == ps
  {
    if |ps| == 1 {
      FieldsOfColonFreePrefix(ps[0], "");
      assert ps[0] + "" == ps[0];
    } else {
      var tail := Join(ps[1..]);
      FieldsJoin(ps[1..]);
      assert ps[0] + ":" + tail == ps[0] + (":" + tail);
      FieldsOfColonFreePrefix(ps[0], ":" + tail);
      assert (":" + tail)[1..] == tail;
      assert Fields(":" + tail) == [""] + ps[1..];
      assert ps[0] + "" == ps[0];
    }
  }

  lemma {:induction false} JoinSnoc(ps: seq<string>, x: string)
    requires |ps| >= 1
    ensures Join(ps + [x]) == Join(ps) + ":" + x
  {
    if |ps| == 1 {
      assert (ps + [x])[1..] == [x];
    } else {
      assert (ps + [x])[1..] == ps[1..] + [x];
      JoinSnoc(ps[1..], x);
    }
  }

  /** Joining with k empty pieces added at the end adds k colons. */
  lemma {:induction false} JoinEmpties(ps: seq<string>, k: nat)
    requires |ps| >= 1
    ensures Join(ps + Empties(k)) == Join(ps) + Colons(k)
  {
    if k == 0 {
      assert ps + Empties(0) == ps;
      assert Join(ps) + Colons(0) == Join(ps);
    } else {
      JoinEmpties(ps, k - 1);
      assert ps + Empties(k) == (ps + Empties(k - 1)) + [""];
      JoinSnoc(ps + Empties(k - 1), "");
      assert Colons(k) == Colons(k - 1) + ":";
    }
  }

  /** What `split` keeps, followed by the empty pieces it dropped, are all the pieces. */
  lemma DropTrailingEmptyParts(ps: seq<string>)
    ensures ps == DropTrailingEmpty(ps) + Empties(|ps| - |DropTrailingEmpty(ps)|)
  {
    var r := DropTrailingEmpty(ps);
    var e := Empties(|ps| - |r|);
    assert |r + e| == |ps|;
    forall i | 0 <= i < |ps| ensures (r + e)[i] == ps[i] {
      if i >= |r| {
        assert (r + e)[i] == e[i - |r|] == "";
      }
    }
  }

  /** The fields `s.split(":")` keeps are colon-free, and the last one is not empty. */
  lemma JavaSplitColonFree(s: string)
    requires ':' in s
    ensures var f := JavaSplit(s);
      (forall p <- f :: ColonFree(p)) && (f == [] || f[|f| - 1] != "")
  {
    var all := Fields(s);
    assert JavaSplit(s) == DropTrailingEmpty(all);
    JoinFields(s);
    forall p <- JavaSplit(s) ensures ColonFree(p) {
      assert p in all;
    }
  }

  /** `s` is the ':'-join of the fields `s.split(":")` keeps, then one colon per dropped field. */
  lemma JavaSplitRejoin(s: string)
    requires ':' in s && |JavaSplit(s)| >= 1
    ensures s == Join(JavaSplit(s)) + Colons(|Fields(s)| - |JavaSplit(s)|)
  {
    var all := Fields(s);
    var f := JavaSplit(s);
    var k := |all| - |f|;
    assert f == DropTrailingEmpty(all);
    assert all == f + Empties(k) by {
      DropTrailingEmptyParts(all);
    }
    assert Join(all) == s by {
      JoinFields(s);
    }
    JoinEmpties(f, k);
  }

  /**
   * `s.split(":")` yields colon-free fields whose last one is not empty, and `s` is
   * their ':'-join followed only by the colons of the dropped empty fields.
   */
  lemma JavaSplitShape(s: string)
    requires ':' in s
    ensures var f := JavaSplit(s);
      (forall p <- f :: ColonFree(p)) && (f == [] || f[|f| - 1] != "")
    ensures |JavaSplit(s)| >= 1 ==>
      exists k: nat :: s == Join(JavaSplit(s)) + Colons(k)
  {
    JavaSplitColonFree(s);
    if |JavaSplit(s)| >= 1 {
      JavaSplitRejoin(s);
      var k: nat := |Fields(s)| - |JavaSplit(s)|;
      assert s == Join(JavaSplit(s)) + Colons(k);
    }
  }

  // ---------------------------------------------------------------------------
  // resolveArtifact(String)
  // ---------------------------------------------------------------------------

  /**
   * The coordinate named by `s`: accepted exactly when the split has 4 or 5 fields,
   * which fill group, artifact, version, type and, with 5 fields, the classifier.
   */
  function ParseCoordinate(s: string): (r: Result<Coordinate, CoordinateError>)
    ensures r.Ok? <==> |JavaSplit(s)| == 4 || |JavaSplit(s)| == 5
    ensures r.Err? ==> r.error == WrongFieldCount(|JavaSplit(s)|)
    ensures r.Ok? ==>
      var f := JavaSplit(s);
      && r.value.groupId == f[0] && r.value.artifactId == f[1]
      && r.value.version == f[2] && r.value.artifactType == f[3]
      && (r.value.classifier.None? <==> |f| == 4)
      && (|f| == 5 ==> r.value.classifier == Some(f[4]))
  {
    var f := JavaSplit(s);
    if |f| == 4 then Ok(Coordinate(f[0], f[1], f[2], f[3], None))
    else if |f| == 5 then Ok(Coordinate(f[0], f[1], f[2], f[3], Some(f[4])))
    else Err(WrongFieldCount(|f|))
  }

  /** The fields of a coordinate, in the order the string form lists them. */
  function FieldList(c: Coordinate): seq<string> {
    [c.groupId, c.artifactId, c.version, c.artifactType]
      + (if c.classifier.Some? then [c.classifier.value] else [])
  }

  /** The string form `g:a:v:t` or `g:a:v:t:c`. */
  function Format(c: Coordinate): string {
    Join(FieldList(c))
  }

  /** The coordinates that the string form can express: no ':' inside a field, and a last field that `split` does not drop. */
  predicate Expressible(c: Coordinate) {
    var f := FieldList(c);
    (forall p <- f :: ColonFree(p)) && f[|f| - 1] != ""
  }

  /** Every expressible coordinate survives the round trip through its string form. */
  lemma ParseFormat(c: Coordinate)
    requires Expressible(c)
    ensures ParseCoordinate(Format(c)) == Ok(c)
  {
    var f := FieldList(c);
    FieldsJoin(f);
    assert Format(c) == c.groupId + ":" + Join(f[1..]);
    assert ':' in Format(c) by {
      assert Format(c)[|c.groupId|] == ':';
    }
    assert JavaSplit(Format(c)) == f;
  }

  /**
   * Conversely, an accepted string names an expressible coordinate, and it is that
   * coordinate's string form followed by nothing but colons.
   */
  lemma ParseSound(s: string, c: Coordinate)
    requires ParseCoordinate(s) == Ok(c)
    ensures Expressible(c)
    ensures exists k: nat :: s == Format(c) + Colons(k)
  {
    var f := JavaSplit(s);
    assert ':' in s;
    JavaSplitShape(s);
    assert FieldList(c) == f;
  }

  /** A trailing ':' after the type is dropped: the string still has 4 fields and no classifier. */
  lemma TrailingColonDropsEmptyClassifier()
    ensures ParseCoordinate("g:a:v:t:") == Ok(Coordinate("g", "a", "v", "t", None))
  {
    var ps := ["g", "a", "v", "t", ""];
    FieldsJoin(ps);
    assert Join(ps) == "g:a:v:t:";
    assert ':' in "g:a:v:t:" by {
      assert "g:a:v:t:"[1] == ':';
    }
    assert DropTrailingEmpty(ps) == ps[..4];
  }

  // ---------------------------------------------------------------------------
  // The srgIn test
  // ---------------------------------------------------------------------------

  /**
   * Whether the `srgIn` setting is taken as an artifact coordinate: it contains ':',
   * has more than one character and its second character is not ':', so that a path
   * starting with a drive letter such as `C:\...` is used as a path.
   */
  predicate IsCoordinateSetting(s: string) {
    ':' in s && |s| > 1 && s[1] != ':'
  }

  /** A setting without ':' is used unchanged. */
  lemma ColonFreeSettingIsPath(s: string)
    requires ColonFree(s)
    ensures !IsCoordinateSetting(s)
  {
  }

  /** A setting whose second character is ':' (a drive-letter path) is used unchanged. */
  lemma DriveLetterSettingIsPath(drive: char, rest: string)
    ensures !IsCoordinateSetting([drive, ':'] + rest)
  {
    assert ([drive, ':'] + rest)[1] == ':';
  }

  /** The string form of a coordinate whose groupId has at least two characters is taken as a coordinate. */
  lemma FormattedSettingIsCoordinate(c: Coordinate)
    requires Expressible(c) && |c.groupId| >= 2
    ensures IsCoordinateSetting(Format(c))
  {
    var s := Format(c);
    assert s == c.groupId + (":" + Join(FieldList(c)[1..]));
    assert s[|c.groupId|] == ':';
    assert s[1] == c.groupId[1];
    assert c.groupId in FieldList(c);
  }

  /** With a one-character groupId the heuristic mistakes the coordinate for a drive-letter path. */
  lemma OneCharGroupSettingIsPath(c: Coordinate)
    requires |c.groupId| == 1
    ensures !IsCoordinateSetting(Format(c))
  {
    var s := Format(c);
    assert s == c.groupId + (":" + Join(FieldList(c)[1..]));
    assert s[1] == ':';
  }
}
