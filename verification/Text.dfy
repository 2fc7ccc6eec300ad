/** Comma-joined strings and SQL pattern matching, as used for the bins of a transfer. */
module Text {

  /** Python's `s.split(',')`: always at least one piece. */
  function Split(s: string): (r: seq<string>)
    ensures |r| >= 1
  {
    if s == "" then [""]
    else
      var rest := Split(s[1..]);
      if s[0] == ',' then [""] + rest else [[s[0]] + rest[0]] + rest[1..]
  }

  /** Python's `','.join(xs)` */
  function Join(xs: seq<string>): string {
    if xs == [] then "" else if |xs| == 1 then xs[0] else xs[0] + "," + Join(xs[1..])
  }

  /** Every element split, one after the other. */
  function SplitAll(xs: seq<string>): seq<string> {
    if xs == [] then [] else Split(xs[0]) + SplitAll(xs[1..])
  }

  predicate CommaFree(s: string) { ',' !in s }

  lemma {:induction false} SplitJoined(a: string, b: string)
    ensures Split(a + "," + b) == Split(a) + Split(b)
  {
    var s := a + "," + b;
    if a == "" {
      assert s[1..] == b;
    } else {
      assert s[1..] == a[1..] + "," + b;
      SplitJoined(a[1..], b);
    }
  }

  /** Splitting a joined list splits its elements: the list comes back unless an element holds a comma. */
  lemma {:induction false} SplitOfJoin(xs: seq<string>)
    requires xs != []
    ensures Split(Join(xs)) == SplitAll(xs)
  {
    if |xs| == 1 {
      assert xs[1..] == [];
      assert Split(xs[0]) + SplitAll([]) == Split(xs[0]);
    } else {
      SplitOfJoin(xs[1..]);
      SplitJoined(xs[0], Join(xs[1..]));
    }
  }

  lemma {:induction false} SplitCommaFree(s: string)
    requires CommaFree(s)
    ensures Split(s) == [s]
  {
    if s != "" {
      SplitCommaFree(s[1..]);
      assert [s[0]] + s[1..] == s;
    }
  }

  lemma {:induction false} SplitAllCommaFree(xs: seq<string>)
    requires forall i :: 0 <= i < |xs| ==> CommaFree(xs[i])
    ensures SplitAll(xs) == xs
  {
    if xs != [] {
      SplitAllCommaFree(xs[1..]);
      SplitCommaFree(xs[0]);
    }
  }

  lemma {:induction false} SplitPiecesCommaFree(s: string)
    ensures forall i :: 0 <= i < |Split(s)| ==> CommaFree(Split(s)[i])
  {
    if s != "" {
      SplitPiecesCommaFree(s[1..]);
      var rest := Split(s[1..]);
      if s[0] != ',' {
        assert CommaFree([s[0]] + rest[0]);
        forall i | 0 <= i < |Split(s)| ensures CommaFree(Split(s)[i]) {
          if i > 0 { assert Split(s)[i] == rest[i]; }
        }
      } else {
        forall i | 0 <= i < |Split(s)| ensures CommaFree(Split(s)[i]) {
          if i > 0 { assert Split(s)[i] == rest[i - 1]; }
        }
      }
    }
  }

  /** Split and join undo each other: join after split always, split after join on comma-free pieces. */
  lemma {:induction false} JoinOfSplit(s: string)
    ensures Join(Split(s)) == s
  {
    if s != "" {
      var rest := Split(s[1..]);
      JoinOfSplit(s[1..]);
      if s[0] == ',' {
        assert ([""] + rest)[1..] == rest;
        assert s == [','] + s[1..];
      } else {
        assert ([[s[0]] + rest[0]] + rest[1..])[1..] == rest[1..];
        assert s == [s[0]] + s[1..];
        if |rest| > 1 {
          assert [s[0]] + (rest[0] + "," + Join(rest[1..])) == ([s[0]] + rest[0]) + "," + Join(rest[1..]);
        }
      }
    }
  }

  /** Splitting undoes joining, for pieces without a comma. */
  lemma {:induction false} SplitUndoesJoin(xs: seq<string>)
    requires xs != [] && forall i :: 0 <= i < |xs| ==> CommaFree(xs[i])
    ensures Split(Join(xs)) == xs
  {
    SplitOfJoin(xs);
    SplitAllCommaFree(xs);
  }

  /** A piece of a string occurs in it. */
  lemma {:induction false} PieceOccurs(s: string, i: nat) returns (before: string, after: string)
    requires i < |Split(s)|
    ensures s == before + Split(s)[i] + after
  {
    if s == "" {
      before, after := "", "";
    } else {
      var rest := Split(s[1..]);
      assert s == [s[0]] + s[1..];
      if s[0] == ',' {
        if i == 0 {
          before, after := "", s;
        } else {
          before, after := PieceOccurs(s[1..], i - 1);
          before := [s[0]] + before;
        }
      } else if i == 0 {
        after := FirstPiece(s);
        before := "";
      } else {
        before, after := PieceOccurs(s[1..], i);
        before := [s[0]] + before;
        assert Split(s)[i] == rest[i];
      }
    }
  }

  lemma {:induction false} FirstPiece(s: string) returns (after: string)
    ensures s == Split(s)[0] + after
  {
    if s == "" || s[0] == ',' {
      after := s;
    } else {
      after := FirstPiece(s[1..]);
      assert s == [s[0]] + (Split(s[1..])[0] + after);
    }
  }

  // ------------------------------------------------------------------ ILIKE

  function Lower(c: char): char {
    if 'A' <= c <= 'Z' then (c as int + 32) as char else c
  }

  /** SQL `text ILIKE pattern`: % any characters, _ one character, \ takes the next one as it is. */
  predicate Like(pattern: string, text: string)
    decreases |pattern| + |text|
  {
    if pattern == "" then text == ""
    else if pattern[0] == '%' then Like(pattern[1..], text) || (text != "" && Like(pattern, text[1..]))
    else if pattern[0] == '_' then text != "" && Like(pattern[1..], text[1..])
    else if pattern[0] == '\\' then
      |pattern| > 1 && text != "" && Lower(text[0]) == Lower(pattern[1]) && Like(pattern[2..], text[1..])
    else text != "" && Lower(text[0]) == Lower(pattern[0]) && Like(pattern[1..], text[1..])
  }

  /** The domain term `('field', 'ilike', s)`: the pattern is %s% and s is not escaped. */
  predicate ILike(s: string, text: string) {
    Like("%" + s + "%", text)
  }

  lemma {:induction false} AnyTail(text: string)
    ensures Like("%", text)
  {
    assert "%"[1..] == "";
    if text != "" {
      AnyTail(text[1..]);
    }
  }

  lemma {:induction false} AnyHead(before: string, pattern: string, text: string)
    requires Like("%" + pattern, text)
    ensures Like("%" + pattern, before + text)
  {
    if before == "" {
      assert before + text == text;
    } else {
      AnyHead(before[1..], pattern, text);
      assert (before + text)[1..] == before[1..] + text;
    }
  }

  /** Without a backslash a string matches itself as a pattern, wildcards included. */
  lemma {:induction false} MatchesItself(s: string, after: string)
    requires '\\' !in s
    ensures Like(s + "%", s + after)
  {
    if s == "" {
      assert s + "%" == "%" && s + after == after;
      AnyTail(after);
    } else {
      MatchesItself(s[1..], after);
      assert (s + "%")[1..] == s[1..] + "%" && (s + after)[1..] == s[1..] + after;
      if s[0] == '%' {
        PercentSkips(s[1..] + "%", s + after);
        assert s + "%" == "%" + (s[1..] + "%");
      }
    }
  }

  lemma {:induction false} PercentSkips(pattern: string, text: string)
    requires text != "" && Like(pattern, text[1..])
    ensures Like("%" + pattern, text)
  {
    assert ("%" + pattern)[1..] == pattern;
    assert Like("%" + pattern, text[1..]);
  }

  lemma {:induction false} PercentEmpty(pattern: string, text: string)
    requires Like(pattern, text)
    ensures Like("%" + pattern, text)
  {
    assert ("%" + pattern)[1..] == pattern;
  }

  /** Does the pattern end in a backslash that is not itself escaped? */
  predicate EndsEscaping(p: string)
    decreases |p|
  {
    p != "" && if p[0] == '\\' then |p| == 1 || EndsEscaping(p[2..]) else EndsEscaping(p[1..])
  }

  lemma {:induction false} EscapingEnd(p: string)
    requires EndsEscaping(p)
    ensures p[|p| - 1] == '\\'
    decreases |p|
  {
    if p[0] == '\\' {
      if |p| > 1 { EscapingEnd(p[2..]); }
    } else {
      EscapingEnd(p[1..]);
    }
  }

  /** Such a pattern takes the closing % literally. */
  lemma {:induction false} EscapedPercent(p: string, t: string)
    requires EndsEscaping(p) && Like(p + "%", t)
    ensures t != "" && t[|t| - 1] == '%'
    decreases |p| + |t|
  {
    var q := p + "%";
    if p[0] == '%' {
      assert q[1..] == p[1..] + "%";
      if Like(q[1..], t) { EscapedPercent(p[1..], t); } else { EscapedPercent(p, t[1..]); }
    } else if p[0] == '\\' {
      if |p| == 1 {
        assert q[2..] == "";
      } else {
        assert q[2..] == p[2..] + "%";
        EscapedPercent(p[2..], t[1..]);
      }
    } else {
      assert q[1..] == p[1..] + "%";
      EscapedPercent(p[1..], t[1..]);
    }
  }

  lemma {:induction false} MatchExtends(p: string, t: string, after: string)
    requires Like(p + "%", t) && !EndsEscaping(p)
    ensures Like(p + "%", t + after)
    decreases |p| + |t|
  {
    if p == "" {
      assert p + "%" == "%";
      AnyTail(t + after);
    } else {
      var q := p + "%";
      assert q[1..] == p[1..] + "%";
      if t != "" { assert (t + after)[1..] == t[1..] + after; }
      if p[0] == '%' {
        if Like(q[1..], t) {
          MatchExtends(p[1..], t, after);
        } else {
          MatchExtends(p, t[1..], after);
        }
      } else if p[0] == '\\' {
        assert q[2..] == p[2..] + "%";
        MatchExtends(p[2..], t[1..], after);
      } else {
        MatchExtends(p[1..], t[1..], after);
      }
    }
  }

  /** If the pattern of s finds s, it finds every text that holds s as a comma-separated piece. */
  lemma {:induction false} PrefilterFinds(s: string, text: string, i: nat)
    requires ILike(s, s) && i < |Split(text)| && Split(text)[i] == s
    ensures ILike(s, text)
  {
    var p := "%" + s;
    assert p[1..] == s;
    if EndsEscaping(p) {
      assert EndsEscaping(s);
      EscapedPercent(p, s);
      EscapingEnd(s);
    }
    var before, after := PieceOccurs(text, i);
    MatchExtends(p, s, after);
    assert p + "%" == "%" + (s + "%") == "%" + s + "%";
    AnyHead(before, s + "%", s + after);
    assert before + (s + after) == text;
  }

  /** The prefilter loses no exact piece of any text exactly when it finds the string itself. */
  lemma {:induction false} PrefilterExactIff(s: string)
    requires CommaFree(s)
    ensures ILike(s, s) <==> forall text: string :: s in Split(text) ==> ILike(s, text)
  {
    SplitCommaFree(s);
    if ILike(s, s) {
      forall text: string | s in Split(text) ensures ILike(s, text) {
        var i :| 0 <= i < |Split(text)| && Split(text)[i] == s;
        PrefilterFinds(s, text, i);
      }
    } else {
      assert s in Split(s);
    }
  }

  /** A string without a backslash is found by its own pattern. */
  lemma {:induction false} PrefilterFindsPlain(s: string)
    requires '\\' !in s
    ensures ILike(s, s)
  {
    MatchesItself(s, "");
    assert s + "" == s;
    PercentEmpty(s + "%", s);
    assert "%" + (s + "%") == "%" + s + "%";
  }

  /** A barcode with a backslash can be lost: the pattern of `A\B` does not find `A\B`. */
  lemma {:induction false} PrefilterLosesBackslash()
    ensures !ILike("A\\B", "A\\B")
  {
    var t := "A\\B";
    assert t[1..] == "\\B" && t[1..][1..] == "B" && t[1..][1..][1..] == "";
    var p := "%A\\B%";
    assert "%" + t + "%" == p && p[1..] == "A\\B%" && p[1..][1..] == "\\B%" && p[1..][1..][2..] == "%";
    assert !Like("\\B%", "\\B") && !Like("A\\B%", t);
    assert !Like("A\\B%", "\\B") && !Like("A\\B%", "B") && !Like("A\\B%", "");
    assert !Like(p, "") && !Like(p, "B") && !Like(p, "\\B");
  }

  // ------------------------------------------------------------------ what the search compares

  /** The same letter, in upper or lower case, or the same character. */
  predicate SameLetter(a: char, b: char) {
    || a == b
    || ('A' <= a <= 'Z' && b as int == a as int + 32) || ('A' <= b <= 'Z' && a as int == b as int + 32)
  }

  lemma {:induction false} LowerIs(a: char, b: char)
    ensures Lower(a) == Lower(b) <==> SameLetter(a, b)
  {
  }

  /** s stands in text at position i: the same letters, and any character for an underscore. */
  predicate StandsAt(s: string, text: string, i: nat) {
    i + |s| <= |text| && forall k :: 0 <= k < |s| ==> s[k] == '_' || SameLetter(s[k], text[i + k])
  }

  lemma {:induction false} StandsRest(s: string, text: string)
    requires s != "" && text != ""
    ensures StandsAt(s, text, 0) <==> (s[0] == '_' || SameLetter(s[0], text[0])) && StandsAt(s[1..], text[1..], 0)
  {
    hide SameLetter;
    if StandsAt(s[1..], text[1..], 0) {
      assert forall k :: 0 < k < |s| ==> s[k] == s[1..][k - 1] && text[k] == text[1..][k - 1];
    }
  }

  lemma {:induction false} HeadMatches(s: string, text: string)
    requires '%' !in s && '\\' !in s
    ensures Like(s + "%", text) <==> StandsAt(s, text, 0)
  {
    if s == "" {
      assert s + "%" == "%";
      AnyTail(text);
    } else {
      assert (s + "%")[1..] == s[1..] + "%" && (s + "%")[0] == s[0];
      if text != "" {
        HeadMatches(s[1..], text[1..]);
        StandsRest(s, text);
        LowerIs(text[0], s[0]);
        hide SameLetter, Lower, StandsAt;
      }
    }
  }

  lemma {:induction false} PercentFinds(q: string, text: string)
    ensures Like("%" + q, text) <==> exists i: nat :: LikeFrom(q, text, i)
    decreases |text|
  {
    assert ("%" + q)[1..] == q && text[0..] == text;
    hide Like;
    LikeIs("%" + q, text);
    if Like(q, text) {
      assert LikeFrom(q, text, 0);
    }
    if text != "" {
      PercentFinds(q, text[1..]);
      if i: nat :| LikeFrom(q, text[1..], i) {
        assert text[1..][i..] == text[i + 1..];
        assert LikeFrom(q, text, i + 1);
      }
      if i: nat :| LikeFrom(q, text, i) {
        if i > 0 {
          assert text[1..][i - 1..] == text[i..];
          assert LikeFrom(q, text[1..], i - 1);
        }
      }
    }
  }

  predicate LikeFrom(q: string, text: string, i: nat) { i <= |text| && Like(q, text[i..]) }

  /** One step of the comparison, at a pattern that begins with a percent sign. */
  lemma {:induction false} LikeIs(pattern: string, text: string)
    requires pattern != "" && pattern[0] == '%'
    ensures Like(pattern, text) <==> Like(pattern[1..], text) || (text != "" && Like(pattern, text[1..]))
  {
  }

  /** The search finds a barcode without percent sign and backslash exactly in the texts in which it stands somewhere,
      in whatever case, an underscore standing for any character. */
  lemma {:induction false} SearchFinds(s: string, text: string)
    requires '%' !in s && '\\' !in s
    ensures ILike(s, text) <==> exists i: nat :: StandsAt(s, text, i)
  {
    var q := s + "%";
    assert "%" + s + "%" == "%" + q;
    PercentFinds(q, text);
    forall i: nat | i <= |text| ensures LikeFrom(q, text, i) <==> StandsAt(s, text, i) {
      HeadMatches(s, text[i..]);
      assert forall k :: 0 <= k < |s| && i + |s| <= |text| ==> text[i..][k] == text[i + k];
      hide SameLetter, Like;
    }
    hide StandsAt, Like;
    if i: nat :| StandsAt(s, text, i) {
      StandsIn(s, text, i);
    }
  }

  lemma {:induction false} StandsIn(s: string, text: string, i: nat)
    requires StandsAt(s, text, i)
    ensures i <= |text|
  {
  }
}
