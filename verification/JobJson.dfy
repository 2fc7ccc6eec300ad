/** The arguments of a stored job: Python values encoded as JSON with tagged objects, and decoded by
    an object hook. Texts of JSON documents are not modelled, only their values. */
module JobJson {

  datatype Result<+T> = Ok(value: T) | Error {
    predicate IsFailure() { Error? }
    function PropagateFailure<U>(): Result<U>
      requires Error?
    {
      Error
    }
    function Extract(): T
      requires Ok?
    {
      value
    }
  }

  /** Date and time of a naive datetime; month, day, hour and so on are within their usual ranges. */
  datatype Moment = Moment(year: nat, month: nat, day: nat, hour: nat, minute: nat, second: nat, micro: nat)

  /** A job argument. Xml is an element, given by the text it serialises to, and its tail, the text after it
      in its document; Lazy is Odoo's lazy value. */
  datatype Value = Null
                 | Bool(b: bool)
                 | Int(i: int)
                 | Text(s: string)
                 | List(items: seq<Value>)
                 | Tuple(items: seq<Value>)
                 | Dict(entries: map<string, Value>)
                 | Recordset(model: string, ids: seq<nat>, uid: nat, su: bool)
                 | DateTime(at: Moment)
                 | Date(year: nat, month: nat, day: nat)
                 | Xml(element: string, tail: string)
                 | Lazy(value: Value)

  /** JSON values, as in RFC 8259. */
  datatype Json = JNull | JBool(b: bool) | JInt(i: int) | JString(s: string)
                | JArray(items: seq<Json>) | JObject(members: map<string, Json>)

  // ------------------------------------------------------------------ ISO dates

  function Digit(n: nat): char
    requires n < 10
  {
    (n + '0' as int) as char
  }

  function DigitValue(c: char): Result<nat> {
    if '0' <= c <= '9' then Ok(c as int - '0' as int) else Error
  }

  /** n in exactly w digits. */
  function Digits(n: nat, w: nat): (r: string)
    ensures |r| == w
  {
    if w == 0 then "" else Digits(n / 10, w - 1) + [Digit(n % 10)]
  }

  function Number(s: string): Result<nat> {
    if s == "" then Ok(0)
    else
      match (Number(s[..|s| - 1]), DigitValue(s[|s| - 1]))
      case (Ok(front), Ok(last)) => Ok(10 * front + last)
      case _ => Error
  }

  function Pow10(w: nat): nat { if w == 0 then 1 else 10 * Pow10(w - 1) }

  /** Reading the digits of a number gives the number. */
  lemma {:induction false} NumberOfDigits(n: nat, w: nat)
    requires n < Pow10(w)
    ensures Number(Digits(n, w)) == Ok(n)
  {
    if w > 0 {
      NumberOfDigits(n / 10, w - 1);
      var s := Digits(n, w);
      assert s[..|s| - 1] == Digits(n / 10, w - 1) && s[|s| - 1] == Digit(n % 10);
    }
  }

  function IsoDateThen(y: nat, m: nat, d: nat, tail: string): string {
    Digits(y, 4) + ("-" + (Digits(m, 2) + ("-" + (Digits(d, 2) + tail))))
  }

  function IsoTimeThen(h: nat, m: nat, s: nat, tail: string): string {
    Digits(h, 2) + (":" + (Digits(m, 2) + (":" + (Digits(s, 2) + tail))))
  }

  /** `date.isoformat()` */
  function IsoDate(y: nat, m: nat, d: nat): string {
    IsoDateThen(y, m, d, "")
  }

  /** `datetime.isoformat()`: the fraction is written only when it is not zero. */
  function IsoMoment(t: Moment): string {
    IsoDateThen(t.year, t.month, t.day,
                "T" + IsoTimeThen(t.hour, t.minute, t.second, if t.micro == 0 then "" else "." + Digits(t.micro, 6)))
  }

  function TakeNumber(s: string, w: nat): Result<(nat, string)> {
    if |s| < w then Error
    else
      var n :- Number(s[..w]);
      Ok((n, s[w..]))
  }

  function Skip(s: string, c: char): Result<string> {
    if s != "" && s[0] == c then Ok(s[1..]) else Error
  }

  /** Three numbers separated by c: the first of w digits, the others of two; and what is left. */
  function TakeThree(s: string, w: nat, c: char): Result<(nat, nat, nat, string)> {
    var first :- TakeNumber(s, w);
    var s1 :- Skip(first.1, c);
    var second :- TakeNumber(s1, 2);
    var s2 :- Skip(second.1, c);
    var third :- TakeNumber(s2, 2);
    Ok((first.0, second.0, third.0, third.1))
  }

  /** What `dateutil.parser.parse` makes of an ISO date or datetime: missing fields are zero. */
  function ParseMoment(s: string): Result<Moment> {
    var date :- TakeThree(s, 4, '-');
    if date.3 == "" then Checked(Moment(date.0, date.1, date.2, 0, 0, 0, 0))
    else
      var s1 :- Skip(date.3, 'T');
      var time :- TakeThree(s1, 2, ':');
      if time.3 == "" then Checked(Moment(date.0, date.1, date.2, time.0, time.1, time.2, 0))
      else
        var s2 :- Skip(time.3, '.');
        var micro :- TakeNumber(s2, 6);
        if micro.1 != "" then Error
        else Checked(Moment(date.0, date.1, date.2, time.0, time.1, time.2, micro.0))
  }

  function Checked(t: Moment): Result<Moment> {
    if ValidMoment(t) then Ok(t) else Error
  }

  predicate ValidDate(y: nat, m: nat, d: nat) {
    1 <= y <= 9999 && 1 <= m <= 12 && 1 <= d <= DaysIn(y, m)
  }

  function DaysIn(y: nat, m: nat): nat {
    if m == 2 then (if y % 4 == 0 && (y % 100 != 0 || y % 400 == 0) then 29 else 28)
    else if m in {4, 6, 9, 11} then 30 else 31
  }

  predicate ValidMoment(t: Moment) {
    ValidDate(t.year, t.month, t.day) && t.hour < 24 && t.minute < 60 && t.second < 60 && t.micro < 1000000
  }

  lemma {:induction false} TakeDigits(n: nat, w: nat, rest: string)
    requires n < Pow10(w)
    ensures TakeNumber(Digits(n, w) + rest, w) == Ok((n, rest))
  {
    NumberOfDigits(n, w);
    assert (Digits(n, w) + rest)[..w] == Digits(n, w) && (Digits(n, w) + rest)[w..] == rest;
  }

  lemma {:induction false} SkipChar(c: char, rest: string)
    ensures Skip([c] + rest, c) == Ok(rest)
  {
  }

  lemma {:induction false} TakeThreeNumbers(a: nat, w: nat, b: nat, d: nat, c: char, rest: string)
    requires a < Pow10(w) && b < 100 && d < 100
    ensures TakeThree(Digits(a, w) + ([c] + (Digits(b, 2) + ([c] + (Digits(d, 2) + rest)))), w, c) == Ok((a, b, d, rest))
  {
    assert Pow10(1) == 10 && Pow10(2) == 100;
    TakeDigits(d, 2, rest);
    SkipChar(c, Digits(d, 2) + rest);
    TakeDigits(b, 2, [c] + (Digits(d, 2) + rest));
    SkipChar(c, Digits(b, 2) + ([c] + (Digits(d, 2) + rest)));
    TakeDigits(a, w, [c] + (Digits(b, 2) + ([c] + (Digits(d, 2) + rest))));
  }

  lemma {:induction false} PowersOfTen()
    ensures Pow10(2) == 100 && Pow10(4) == 10000 && Pow10(6) == 1000000
  {
    assert Pow10(1) == 10;
    assert Pow10(3) == 1000;
    assert Pow10(5) == 100000;
  }

  /** Parsing undoes ISO formatting, with and without a fraction. */
  lemma {:induction false} MomentRoundTrip(t: Moment)
    requires ValidMoment(t)
    ensures ParseMoment(IsoMoment(t)) == Ok(t)
  {
    var fraction := if t.micro == 0 then "" else "." + Digits(t.micro, 6);
    var time := IsoTimeThen(t.hour, t.minute, t.second, fraction);
    PowersOfTen();
    TakeThreeNumbers(t.year, 4, t.month, t.day, '-', "T" + time);
    SkipChar('T', time);
    TakeThreeNumbers(t.hour, 2, t.minute, t.second, ':', fraction);
    if t.micro != 0 {
      SkipChar('.', Digits(t.micro, 6));
      TakeDigits(t.micro, 6, "");
      assert Digits(t.micro, 6) + "" == Digits(t.micro, 6);
    }
  }

  /** Parsing an ISO date gives the date at midnight. */
  lemma {:induction false} DateRoundTrip(y: nat, m: nat, d: nat)
    requires ValidDate(y, m, d)
    ensures ParseMoment(IsoDate(y, m, d)) == Ok(Moment(y, m, d, 0, 0, 0, 0))
  {
    PowersOfTen();
    TakeThreeNumbers(y, 4, m, d, '-', "");
  }

  // ------------------------------------------------------------------ XML elements

  function EscapedChar(c: char): string {
    if c == '<' then "&lt;" else if c == '>' then "&gt;" else if c == '&' then "&amp;"
    else if c == '\r' then "&#13;" else [c]
  }

  function Escaped(s: string): string {
    if s == "" then "" else EscapedChar(s[0]) + Escaped(s[1..])
  }

  /** White space that is written as it is. */
  predicate Space(c: char) { c in " \t\n" }

  predicate Blank(s: string) { forall i :: 0 <= i < |s| ==> Space(s[i]) }

  /** The end of the last tag. */
  function LastTag(s: string): (k: nat)
    ensures k <= |s|
    ensures k > 0 ==> s[k - 1] == '>'
    ensures forall i :: k <= i < |s| ==> s[i] != '>'
  {
    if s == "" then 0 else if s[|s| - 1] == '>' then |s| else LastTag(s[..|s| - 1])
  }

  /** `tostring`: the element, then its tail. */
  function XmlText(element: string, tail: string): string { element + Escaped(tail) }

  /** `fromstring`: an element with nothing after it but white space, which is not kept. */
  function ParseXml(s: string): Result<Value> {
    var k := LastTag(s);
    if k == 0 || !Blank(s[k..]) then Error else Ok(Xml(s[..k], ""))
  }

  /** An element ends with a tag. */
  predicate ElementText(s: string) { s != "" && s[|s| - 1] == '>' }

  lemma {:induction false} EscapedIs(s: string)
    ensures forall i :: 0 <= i < |Escaped(s)| ==> Escaped(s)[i] != '>'
    ensures Blank(Escaped(s)) <==> Blank(s)
  {
    if s != "" {
      var first, rest := EscapedChar(s[0]), Escaped(s[1..]);
      EscapedIs(s[1..]);
      assert forall i :: 0 <= i < |s[1..]| ==> s[1..][i] == s[i + 1];
      assert Blank(first) <==> Space(s[0]) by { assert !Space('&') && (first[0] == '&' || first == [s[0]]); }
      BlankAppend(first, rest);
      BlankAppend([s[0]], s[1..]);
      assert s == [s[0]] + s[1..];
    }
  }

  lemma {:induction false} BlankAppend(a: string, b: string)
    ensures Blank(a + b) <==> Blank(a) && Blank(b)
  {
    if Blank(a + b) {
      assert forall i :: 0 <= i < |a| ==> a[i] == (a + b)[i];
      assert forall i :: 0 <= i < |b| ==> b[i] == (a + b)[|a| + i];
    }
  }

  /** Parsing an element's own text raises if its tail is more than white space, and loses the tail. */
  lemma {:induction false} XmlRoundTrip(element: string, tail: string)
    requires ElementText(element)
    ensures ParseXml(XmlText(element, tail)) == if Blank(tail) then Ok(Xml(element, "")) else Error
  {
    var s, rest := XmlText(element, tail), Escaped(tail);
    var k := LastTag(s);
    EscapedIs(tail);
    assert s[|element| - 1] == '>';
    assert forall i :: |element| <= i < |s| ==> s[i] == rest[i - |element|];
    assert s[..|element|] == element && s[|element|..] == rest;
  }

  // ------------------------------------------------------------------ encoder

  const TAG := "_type"
  const RECORDSET := "odoo_recordset"
  const DATETIME := "datetime_isoformat"
  const DATE := "date_isoformat"
  const ETREE := "etree_element"

  function Tagged(tag: string, value: string): Json {
    JObject(map[TAG := JString(tag), "value" := JString(value)])
  }

  function IdList(ids: seq<nat>): Json {
    JArray(seq(|ids|, i requires 0 <= i < |ids| => JInt(ids[i])))
  }

  /** `json.dumps(value, cls=JobEncoder)` */
  function Encode(v: Value): Json {
    match v
    case Null => JNull
    case Bool(b) => JBool(b)
    case Int(i) => JInt(i)
    case Text(s) => JString(s)
    case List(items) => JArray(seq(|items|, i requires 0 <= i < |items| => Encode(items[i])))
    case Tuple(items) => JArray(seq(|items|, i requires 0 <= i < |items| => Encode(items[i])))
    case Dict(entries) => JObject(map k | k in entries :: Encode(entries[k]))
    case Recordset(model, ids, uid, su) =>
      JObject(map[TAG := JString(RECORDSET), "model" := JString(model), "ids" := IdList(ids),
                  "uid" := JInt(uid), "su" := JBool(su)])
    case DateTime(at) => Tagged(DATETIME, IsoMoment(at))
    case Date(y, m, d) => Tagged(DATE, IsoDate(y, m, d))
    case Xml(element, tail) => Tagged(ETREE, XmlText(element, tail))
    case Lazy(inner) => Encode(inner)
  }

  // ------------------------------------------------------------------ decoder

  /** Whom decoded recordsets belong to when the object does not say. */
  datatype Env = Env(uid: nat, su: bool)

  function StringOf(d: map<string, Value>, k: string): Result<string> {
    if k in d && d[k].Text? then Ok(d[k].s) else Error
  }

  function IdsOf(items: seq<Value>): Result<seq<nat>> {
    if items == [] then Ok([])
    else
      match (items[0], IdsOf(items[1..]))
      case (Int(i), Ok(rest)) => if i >= 0 then Ok([i] + rest) else Error
      case _ => Error
  }

  /** `object_hook`: applied to every decoded object, innermost first. A missing key raises. */
  function Hook(env: Env, d: map<string, Value>): Result<Value> {
    if TAG !in d || !d[TAG].Text? then Ok(Dict(d))
    else
      var tag := d[TAG].s;
      if tag == RECORDSET then
        match (StringOf(d, "model"), if "ids" in d && d["ids"].List? then IdsOf(d["ids"].items) else Error)
        case (Ok(model), Ok(ids)) =>
          var user := if "uid" in d then d["uid"] else Null;
          var su := if "su" in d then d["su"] else Null;
          if !(user.Null? || (user.Int? && user.i >= 0)) || !(su.Null? || su.Bool?) then Error
          else Ok(Recordset(model, ids, if user.Null? then env.uid else user.i,
                            if su.Bool? then su.b else user.Null? && env.su))
        case _ => Error
      else if tag == DATETIME then
        match StringOf(d, "value")
        case Ok(s) => (match ParseMoment(s) case Ok(t) => Ok(DateTime(t)) case Error => Error)
        case Error => Error
      else if tag == DATE then
        match StringOf(d, "value")
        case Ok(s) => (match ParseMoment(s) case Ok(t) => Ok(Date(t.year, t.month, t.day)) case Error => Error)
        case Error => Error
      else if tag == ETREE then
        match StringOf(d, "value")
        case Ok(s) => ParseXml(s)
        case Error => Error
      else Ok(Dict(d))
  }

  /** `json.loads(text, cls=JobDecoder)` */
  function Decode(env: Env, j: Json): Result<Value>
    decreases j, 1
  {
    match j
    case JNull => Ok(Null)
    case JBool(b) => Ok(Bool(b))
    case JInt(i) => Ok(Int(i))
    case JString(s) => Ok(Text(s))
    case JArray(items) =>
      if forall i :: 0 <= i < |items| ==> Decode(env, items[i]).Ok?
      then Ok(List(seq(|items|, i requires 0 <= i < |items| => Decode(env, items[i]).value)))
      else Error
    case JObject(members) =>
      if forall k :: k in members ==> Decode(env, members[k]).Ok?
      then Hook(env, Members(env, j))
      else Error
  }

  function Members(env: Env, j: Json): map<string, Value>
    requires j.JObject? && forall k :: k in j.members ==> Decode(env, j.members[k]).Ok?
    decreases j, 0
  {
    map k | k in j.members :: Decode(env, j.members[k]).value
  }

  // ------------------------------------------------------------------ round trip

  /** What JSON keeps of a value: tuples become lists, lazy values their value. */
  function Plain(v: Value): Value {
    match v
    case List(items) => List(seq(|items|, i requires 0 <= i < |items| => Plain(items[i])))
    case Tuple(items) => List(seq(|items|, i requires 0 <= i < |items| => Plain(items[i])))
    case Dict(entries) => Dict(map k | k in entries :: Plain(entries[k]))
    case Lazy(inner) => Plain(inner)
    case _ => v
  }

  /** Dates and times are real ones, and elements end with a tag. */
  predicate Valid(v: Value) {
    match v
    case List(items) => forall i :: 0 <= i < |items| ==> Valid(items[i])
    case Tuple(items) => forall i :: 0 <= i < |items| ==> Valid(items[i])
    case Dict(entries) => forall k :: k in entries ==> Valid(entries[k])
    case Lazy(inner) => Valid(inner)
    case DateTime(at) => ValidMoment(at)
    case Date(y, m, d) => ValidDate(y, m, d)
    case Xml(element, _) => ElementText(element)
    case _ => true
  }

  predicate Reserved(v: Value) {
    v.Text? && v.s in {RECORDSET, DATETIME, DATE, ETREE}
  }

  /** No plain dictionary inside v has one of the four tags under "_type", and no element has a tail. */
  predicate Returns(v: Value) {
    match v
    case List(items) => forall i :: 0 <= i < |items| ==> Returns(items[i])
    case Tuple(items) => forall i :: 0 <= i < |items| ==> Returns(items[i])
    case Dict(entries) =>
      && (forall k :: k in entries ==> Returns(entries[k]))
      && (TAG in entries ==> !Reserved(Plain(entries[TAG])))
    case Lazy(inner) => Returns(inner)
    case Xml(_, tail) => tail == ""
    case _ => true
  }

  lemma {:induction false} IdListRoundTrip(ids: seq<nat>, items: seq<Value>)
    requires |items| == |ids| && forall i :: 0 <= i < |ids| ==> items[i] == Int(ids[i])
    ensures IdsOf(items) == Ok(ids)
  {
    if ids != [] {
      IdListRoundTrip(ids[1..], items[1..]);
      assert items[0] == Int(ids[0]);
      assert [ids[0]] + ids[1..] == ids;
    }
  }

  lemma {:induction false} DecodeObject(env: Env, members: map<string, Json>, d: map<string, Value>)
    requires members.Keys == d.Keys && forall k :: k in members ==> Decode(env, members[k]) == Ok(d[k])
    ensures Decode(env, JObject(members)) == Hook(env, d)
  {
    assert Members(env, JObject(members)) == d;
  }

  lemma {:induction false} IdListDecoded(env: Env, ids: seq<nat>)
    ensures Decode(env, IdList(ids)).Ok? && Decode(env, IdList(ids)).value.List?
    ensures IdsOf(Decode(env, IdList(ids)).value.items) == Ok(ids)
  {
    var list := IdList(ids);
    assert forall i :: 0 <= i < |ids| ==> Decode(env, list.items[i]) == Ok(Int(ids[i]));
    IdListRoundTrip(ids, Decode(env, list).value.items);
  }

  /** The members of an encoded recordset, decoded. */
  function RecordsetMembers(model: string, ids: Value, uid: nat, su: bool): map<string, Value> {
    map[TAG := Text(RECORDSET), "model" := Text(model), "ids" := ids, "uid" := Int(uid), "su" := Bool(su)]
  }

  lemma {:induction false} RecordsetHook(env: Env, model: string, items: seq<Value>, ids: seq<nat>, uid: nat, su: bool)
    requires IdsOf(items) == Ok(ids)
    ensures Hook(env, RecordsetMembers(model, List(items), uid, su)) == Ok(Recordset(model, ids, uid, su))
  {
    var d := RecordsetMembers(model, List(items), uid, su);
    assert "model" in d && "ids" in d && "uid" in d && "su" in d && d[TAG] == Text(RECORDSET);
    assert d["model"] == Text(model) && d["ids"] == List(items) && d["uid"] == Int(uid) && d["su"] == Bool(su);
  }

  /** A recordset comes back with its model, ids, user and superuser flag, whoever decodes it. */
  lemma {:induction false} RecordsetRoundTrip(env: Env, model: string, ids: seq<nat>, uid: nat, su: bool)
    ensures Decode(env, Encode(Recordset(model, ids, uid, su))) == Ok(Recordset(model, ids, uid, su))
  {
    IdListDecoded(env, ids);
    var list := Decode(env, IdList(ids)).value;
    var members, d := Encode(Recordset(model, ids, uid, su)).members, RecordsetMembers(model, list, uid, su);
    hide Hook, IdList;
    RecordsetHook(env, model, list.items, ids, uid, su);
    forall k | k in members ensures k in d && Decode(env, members[k]) == Ok(d[k]) {
    }
    DecodeObject(env, members, d);
  }

  lemma {:induction false} TaggedHook(env: Env, tag: string, value: string)
    ensures Decode(env, Tagged(tag, value)) == Hook(env, map[TAG := Text(tag), "value" := Text(value)])
  {
    DecodeObject(env, Tagged(tag, value).members, map[TAG := Text(tag), "value" := Text(value)]);
  }

  /** The hook leaves a dictionary alone exactly when its tag is not one of the four. */
  lemma {:induction false} HookKeepsIff(env: Env, d: map<string, Value>)
    ensures Hook(env, d) == Ok(Dict(d)) <==> !(TAG in d && Reserved(d[TAG]))
    ensures !(TAG in d && Reserved(d[TAG])) || !Hook(env, d).Ok? || !Hook(env, d).value.Dict?
  {
  }

  /** Encoding and decoding a job argument gives it back, up to tuples and lazy values, exactly when no
      plain dictionary in it uses a reserved tag and no element in it has a tail. */
  lemma {:induction false} JobArgumentRoundTripIff(env: Env, v: Value)
    requires Valid(v)
    ensures Decode(env, Encode(v)) == Ok(Plain(v)) <==> Returns(v)
    decreases v, 1
  {
    match v
    case List(items) => ItemsRoundTripIff(env, v, items);
    case Tuple(items) => ItemsRoundTripIff(env, v, items);
    case Dict(entries) =>
      forall k | k in entries ensures Decode(env, Encode(entries[k])) == Ok(Plain(entries[k])) <==> Returns(entries[k]) {
        JobArgumentRoundTripIff(env, entries[k]);
      }
      DictRoundTripIff(env, entries);
    case Lazy(inner) => JobArgumentRoundTripIff(env, inner);
    case _ => LeafRoundTrip(env, v);
  }

  lemma {:induction false} TagsDiffer()
    ensures RECORDSET != DATETIME && RECORDSET != DATE && RECORDSET != ETREE
    ensures DATETIME != DATE && DATETIME != ETREE && DATE != ETREE
  {
    assert RECORDSET[0] == 'o' && DATETIME[0] == 'd' && DATE[0] == 'd' && ETREE[0] == 'e';
    assert |DATETIME| == 18 && |DATE| == 14;
  }

  lemma {:induction false} MomentLeaf(env: Env, at: Moment)
    requires ValidMoment(at)
    ensures Decode(env, Encode(DateTime(at))) == Ok(DateTime(at))
  {
    TagsDiffer();
    MomentRoundTrip(at);
    TaggedHook(env, DATETIME, IsoMoment(at));
  }

  lemma {:induction false} DateLeaf(env: Env, y: nat, m: nat, d: nat)
    requires ValidDate(y, m, d)
    ensures Decode(env, Encode(Date(y, m, d))) == Ok(Date(y, m, d))
  {
    TagsDiffer();
    DateRoundTrip(y, m, d);
    TaggedHook(env, DATE, IsoDate(y, m, d));
  }

  /** An element with a tail does not come back: white space is lost, other text cannot be parsed. */
  lemma {:induction false} XmlLeaf(env: Env, element: string, tail: string)
    requires ElementText(element)
    ensures Decode(env, Encode(Xml(element, tail))) == if Blank(tail) then Ok(Xml(element, "")) else Error
  {
    TagsDiffer();
    TaggedHook(env, ETREE, XmlText(element, tail));
    XmlRoundTrip(element, tail);
  }

  lemma {:induction false} LeafRoundTrip(env: Env, v: Value)
    requires Valid(v) && !v.List? && !v.Tuple? && !v.Dict? && !v.Lazy?
    ensures Decode(env, Encode(v)) == Ok(v) <==> Returns(v)
  {
    match v
    case Recordset(model, ids, uid, su) => RecordsetRoundTrip(env, model, ids, uid, su);
    case DateTime(at) => MomentLeaf(env, at);
    case Date(y, m, d) => DateLeaf(env, y, m, d);
    case Xml(element, tail) => XmlLeaf(env, element, tail);
    case _ =>
  }

  lemma {:induction false} ItemsRoundTripIff(env: Env, v: Value, items: seq<Value>)
    requires v == List(items) || v == Tuple(items)
    requires Valid(v)
    ensures Decode(env, Encode(v)) == Ok(Plain(v)) <==> Returns(v)
    decreases v, 0
  {
    forall i | 0 <= i < |items| ensures Decode(env, Encode(items[i])) == Ok(Plain(items[i])) <==> Returns(items[i]) {
      JobArgumentRoundTripIff(env, items[i]);
    }
    var j := Encode(v).items;
    assert forall i :: 0 <= i < |items| ==> j[i] == Encode(items[i]);
    var decoded := Decode(env, Encode(v));
    if decoded.Ok? {
      assert forall i :: 0 <= i < |items| ==> decoded.value.items[i] == Decode(env, j[i]).value;
      if Returns(v) {
        assert decoded.value.items == Plain(v).items;
      }
      if decoded == Ok(Plain(v)) {
        forall i | 0 <= i < |items| ensures Returns(items[i]) {
          assert Plain(v).items[i] == Plain(items[i]);
          assert Decode(env, j[i]) == Ok(Plain(items[i]));
        }
      }
    }
  }

  lemma {:induction false} DictRoundTripIff(env: Env, entries: map<string, Value>)
    requires forall k :: k in entries ==> (Decode(env, Encode(entries[k])) == Ok(Plain(entries[k])) <==> Returns(entries[k]))
    ensures Decode(env, Encode(Dict(entries))) == Ok(Plain(Dict(entries))) <==> Returns(Dict(entries))
  {
    var members := Encode(Dict(entries)).members;
    var plain := Plain(Dict(entries)).entries;
    if forall k :: k in members ==> Decode(env, members[k]).Ok? {
      var d := Members(env, JObject(members));
      HookKeepsIff(env, d);
      if Hook(env, d) == Ok(Dict(plain)) {
        assert d == plain;
        forall k | k in entries ensures Returns(entries[k]) {
          assert k in members && members[k] == Encode(entries[k]) && Decode(env, members[k]).Ok?;
          assert d[k] == Decode(env, members[k]).value && plain[k] == Plain(entries[k]);
        }
      }
      if Returns(Dict(entries)) {
        assert d == plain;
      }
    }
  }
}
