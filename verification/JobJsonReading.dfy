/** What the decoder makes of texts and dictionaries: which dates it reads, what an element's text holds, and whom a
    decoded recordset belongs to. */
module JobJsonReading {
  import opened JobJson

  // ------------------------------------------------------------------ dates

  /** The days of the calendar. */
  predicate Calendar(y: nat, m: nat, d: nat) {
    && 1 <= y <= 9999 && 1 <= d
    && ((m in {1, 3, 5, 7, 8, 10, 12} && d <= 31) || (m in {4, 6, 9, 11} && d <= 30) || (m == 2 && d <= 28)
        || (m == 2 && d == 29 && (y % 400 == 0 || (y % 4 == 0 && y % 100 != 0))))
  }

  lemma {:induction false} LeapYears(y: nat)
    ensures y % 400 == 0 ==> y % 4 == 0 && y % 100 == 0
  {
    if y % 400 == 0 {
      assert y == 4 * (100 * (y / 400)) && y == 100 * (4 * (y / 400));
    }
  }

  /** A moment is valid exactly if its day is one of the calendar and its time one of the day. */
  lemma {:induction false} ValidIff(t: Moment)
    ensures ValidDate(t.year, t.month, t.day) <==> Calendar(t.year, t.month, t.day)
    ensures ValidMoment(t) <==>
            Calendar(t.year, t.month, t.day) && t.hour <= 23 && t.minute <= 59 && t.second <= 59 && t.micro <= 999999
  {
    LeapYears(t.year);
  }

  lemma {:induction false} DigitOf(c: char)
    ensures DigitValue(c).Ok? ==> DigitValue(c).value < 10 && Digit(DigitValue(c).value) == c
  {
  }

  /** Only digits are read as a number, and they are the number's. */
  lemma {:induction false} NumberIs(s: string)
    ensures Number(s).Ok? ==> Number(s).value < Pow10(|s|) && Digits(Number(s).value, |s|) == s
  {
    if s != "" && Number(s).Ok? {
      var front, c := s[..|s| - 1], s[|s| - 1];
      NumberIs(front);
      DigitOf(c);
      var n := Number(s).value;
      assert n / 10 == Number(front).value && n % 10 == DigitValue(c).value;
      assert s == front + [c];
    }
  }

  lemma {:induction false} TakenIs(s: string, w: nat)
    ensures TakeNumber(s, w).Ok? ==> var (n, rest) := TakeNumber(s, w).value; s == Digits(n, w) + rest
  {
    if TakeNumber(s, w).Ok? {
      NumberIs(s[..w]);
      assert s == s[..w] + s[w..];
    }
  }

  lemma {:induction false} SkippedIs(s: string, c: char)
    ensures Skip(s, c).Ok? ==> s == [c] + Skip(s, c).value
  {
  }

  lemma {:induction false} ThreeTaken(s: string, w: nat, c: char)
    ensures TakeThree(s, w, c).Ok? ==>
              var (a, b, d, rest) := TakeThree(s, w, c).value;
              s == Digits(a, w) + ([c] + (Digits(b, 2) + ([c] + (Digits(d, 2) + rest))))
  {
    TakenIs(s, w);
    hide Digits, Number;
    if TakeThree(s, w, c).Ok? {
      var first := TakeNumber(s, w).value;
      SkippedIs(first.1, c);
      var s1 := Skip(first.1, c).value;
      TakenIs(s1, 2);
      var second := TakeNumber(s1, 2).value;
      SkippedIs(second.1, c);
      TakenIs(Skip(second.1, c).value, 2);
    }
  }

  /** A text of a date, of a date and time, or of both with a fraction of six digits. */
  ghost predicate Spells(s: string, t: Moment) {
    || (s == IsoDate(t.year, t.month, t.day) && t == Moment(t.year, t.month, t.day, 0, 0, 0, 0))
    || (s == IsoDateThen(t.year, t.month, t.day, "T" + IsoTimeThen(t.hour, t.minute, t.second, "")) && t.micro == 0)
    || s == IsoDateThen(t.year, t.month, t.day, "T" + IsoTimeThen(t.hour, t.minute, t.second, "." + Digits(t.micro, 6)))
  }

  /** What is read is a day of the calendar at a time of the day, spelled by the text: nothing else is accepted. */
  lemma {:induction false} ReadIsSpelled(s: string)
    ensures ParseMoment(s).Ok? ==> ValidMoment(ParseMoment(s).value) && Spells(s, ParseMoment(s).value)
  {
    if ParseMoment(s).Ok? {
      ThreeTaken(s, 4, '-');
      hide Digits, Number, TakeThree, ValidDate;
      var date := TakeThree(s, 4, '-').value;
      if date.3 != "" {
        SkippedIs(date.3, 'T');
        var s1 := Skip(date.3, 'T').value;
        ThreeTaken(s1, 2, ':');
        var time := TakeThree(s1, 2, ':').value;
        if time.3 != "" {
          SkippedIs(time.3, '.');
          var s2 := Skip(time.3, '.').value;
          TakenIs(s2, 6);
          assert Digits(TakeNumber(s2, 6).value.0, 6) + "" == Digits(TakeNumber(s2, 6).value.0, 6);
        }
      }
    }
  }

  // ------------------------------------------------------------------ elements

  /** The inverse of escaping. */
  function Unescaped(s: string): string
    decreases |s|
  {
    if s == "" then ""
    else if |s| >= 4 && s[..4] == "&lt;" then "<" + Unescaped(s[4..])
    else if |s| >= 4 && s[..4] == "&gt;" then ">" + Unescaped(s[4..])
    else if |s| >= 5 && s[..5] == "&amp;" then "&" + Unescaped(s[5..])
    else if |s| >= 5 && s[..5] == "&#13;" then "\r" + Unescaped(s[5..])
    else [s[0]] + Unescaped(s[1..])
  }

  lemma {:induction false} NoMarkup(s: string)
    ensures forall i :: 0 <= i < |Escaped(s)| ==> Escaped(s)[i] != '<' && Escaped(s)[i] != '>' && Escaped(s)[i] != '\r'
  {
    if s != "" {
      NoMarkup(s[1..]);
    }
  }

  /** A tail is written without markup and without carriage returns, and can be read back. */
  lemma {:induction false} EscapedReadsBack(s: string)
    ensures Unescaped(Escaped(s)) == s
    ensures '<' !in Escaped(s) && '>' !in Escaped(s) && '\r' !in Escaped(s)
  {
    NoMarkup(s);
    if s != "" {
      EscapedReadsBack(s[1..]);
      FirstReadsBack(s[0], Escaped(s[1..]));
      assert Escaped(s) == EscapedChar(s[0]) + Escaped(s[1..]);
      assert s == [s[0]] + s[1..];
    } else {
      assert Unescaped("") == "";
    }
    hide Unescaped, EscapedChar, Escaped;
  }

  lemma {:induction false} FirstReadsBack(c: char, rest: string)
    ensures Unescaped(EscapedChar(c) + rest) == [c] + Unescaped(rest)
  {
    var e := EscapedChar(c);
    var s := e + rest;
    assert s[|e|..] == rest && s[..|e|] == e;
    if |e| == 1 {
      assert s[0] == c && c != '&';
      assert |s| >= 4 ==> s[..4][0] == c;
      assert |s| >= 5 ==> s[..5][0] == c;
    } else {
      assert |s| >= 4 && s[..4] == e[..4];
      assert s[..4][1] == e[1] && "&lt;"[1] == 'l' && "&gt;"[1] == 'g';
      if |e| == 5 {
        assert s[..5] == e && e[1] != 'l' && e[1] != 'g';
        assert "&amp;"[1] == 'a' && "&#13;"[1] == '#';
      }
    }
  }

  /** An element up to k, and white space after it. */
  predicate ElementTo(s: string, k: nat) {
    0 < k <= |s| && s[k - 1] == '>' && forall i :: k <= i < |s| ==> s[i] == ' ' || s[i] == '\t' || s[i] == '\n'
  }

  lemma {:induction false} LastTagIs(s: string, k: nat)
    ensures ElementTo(s, k) ==> LastTag(s) == k
  {
    var last := LastTag(s);
    assert last > 0 ==> s[last - 1] == '>';
    assert forall i :: last <= i < |s| ==> s[i] != '>';
  }

  /** What is read is an element up to its last tag, with white space after it that is not kept. */
  lemma {:induction false} ReadElement(s: string)
    ensures ParseXml(s).Ok? <==> exists k: nat :: ElementTo(s, k)
    ensures forall k: nat :: ElementTo(s, k) ==> ParseXml(s) == Ok(Xml(s[..k], ""))
  {
    var last := LastTag(s);
    forall k: nat | ElementTo(s, k) ensures ParseXml(s) == Ok(Xml(s[..k], "")) {
      LastTagIs(s, k);
      BlankAfter(s, k);
      hide ElementTo, Blank, LastTag;
    }
    if ParseXml(s).Ok? {
      BlankAfter(s, last);
      hide Blank;
      assert ElementTo(s, last);
    }
  }

  lemma {:induction false} BlankAfter(s: string, k: nat)
    requires k <= |s|
    ensures Blank(s[k..]) <==> forall i :: k <= i < |s| ==> s[i] == ' ' || s[i] == '\t' || s[i] == '\n'
  {
    assert forall i :: k <= i < |s| ==> s[i] == s[k..][i - k];
  }

  // ------------------------------------------------------------------ recordsets

  /** An object with a missing or null entry. */
  predicate Missing(d: map<string, Value>, k: string) { k !in d || d[k].Null? }

  /** A decoded recordset belongs to the user it names, or else to the one who decodes it; it is a superuser's if it
      says so, and if it says nothing only when it names no user either and the one who decodes it is. */
  lemma {:induction false} BelongsTo(env: Env, d: map<string, Value>, model: string, ids: seq<nat>)
    requires TAG in d && d[TAG] == Text(RECORDSET) && "model" in d && d["model"] == Text(model)
    requires "ids" in d && d["ids"].List? && IdsOf(d["ids"].items) == Ok(ids)
    ensures Missing(d, "uid") && Missing(d, "su") ==> Hook(env, d) == Ok(Recordset(model, ids, env.uid, env.su))
    ensures "uid" in d && d["uid"].Int? && d["uid"].i >= 0 && Missing(d, "su") ==>
              Hook(env, d) == Ok(Recordset(model, ids, d["uid"].i, false))
    ensures Missing(d, "uid") && "su" in d && d["su"].Bool? ==> Hook(env, d) == Ok(Recordset(model, ids, env.uid, d["su"].b))
    ensures "uid" in d && d["uid"].Int? && d["uid"].i >= 0 && "su" in d && d["su"].Bool? ==>
              Hook(env, d) == Ok(Recordset(model, ids, d["uid"].i, d["su"].b))
  {
  }

  /** The ids are read exactly if all are whole numbers that are not negative. */
  lemma {:induction false} IdsAre(items: seq<Value>)
    ensures IdsOf(items).Ok? <==> forall i :: 0 <= i < |items| ==> items[i].Int? && items[i].i >= 0
    ensures IdsOf(items).Ok? ==>
              |IdsOf(items).value| == |items| && forall i :: 0 <= i < |items| ==> items[i] == Int(IdsOf(items).value[i])
  {
    if items != [] {
      IdsAre(items[1..]);
      assert forall i :: 0 < i < |items| ==> items[i] == items[1..][i - 1];
    }
  }
}
