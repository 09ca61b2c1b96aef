/**
 * Canonical JSON and the program hash (browser_executor/protocol.py, extension/protocol.mjs): compact text with sorted
 * keys and minimal escaping. Values are those of sections 4, 5 and 7 of RFC 8259, with integers as the only numbers.
 */
module CanonicalJson {
  import opened Common

  datatype Json = Null | Bool(flag: bool) | Int(n: int) | Str(text: string) | Arr(items: Items) | Obj(members: Members)
  datatype Items = NoItems | Item(head: Json, tail: Items)
  datatype Members = NoMembers | Member(key: string, value: Json, rest: Members)

  // ----- printing

  function DigitChar(d: nat): char
    requires d < 10
  {
    ('0' as int + d) as char
  }

  function HexChar(d: nat): char
    requires d < 16
  {
    if d < 10 then DigitChar(d) else ('a' as int + d - 10) as char
  }

  function Digits(n: nat): (s: string)
    ensures s != []
  {
    if n < 10 then [DigitChar(n)] else Digits(n / 10) + [DigitChar(n % 10)]
  }

  function PrintInt(n: int): string {
    if n < 0 then "-" + Digits(-n) else Digits(n)
  }

  /** Quotation mark, reverse solidus and control characters are escaped, nothing else. */
  function Escape(c: char): string {
    if c == '\"' then "\\\""
    else if c == '\\' then "\\\\"
    else if c == '\n' then "\\n"
    else if c == '\r' then "\\r"
    else if c == '\t' then "\\t"
    else if c as int == 8 then "\\b"
    else if c as int == 12 then "\\f"
    else if c < ' ' then "\\u00" + [HexChar(c as int / 16), HexChar(c as int % 16)]
    else [c]
  }

  function EscapeAll(s: string): string {
    if s == [] then [] else Escape(s[0]) + EscapeAll(s[1..])
  }

  function PrintString(s: string): string {
    "\"" + EscapeAll(s) + "\""
  }

  function Print(v: Json): string {
    match v
    case Null => "null"
    case Bool(flag) => if flag then "true" else "false"
    case Int(n) => PrintInt(n)
    case Str(text) => PrintString(text)
    case Arr(items) => "[" + PrintArr(items)
    case Obj(members) => "{" + PrintObj(members)
  }

  function PrintArr(items: Items): string {
    match items
    case NoItems => "]"
    case Item(head, tail) => Print(head) + PrintItems(tail)
  }

  function PrintObj(members: Members): string {
    match members
    case NoMembers => "}"
    case Member(key, value, rest) => PrintString(key) + ":" + Print(value) + PrintMembers(rest)
  }

  function PrintItems(items: Items): string {
    match items
    case NoItems => "]"
    case Item(head, tail) => "," + Print(head) + PrintItems(tail)
  }

  function PrintMembers(members: Members): string {
    match members
    case NoMembers => "}"
    case Member(key, value, rest) => "," + PrintString(key) + ":" + Print(value) + PrintMembers(rest)
  }

  // ----- parsing

  datatype Parsed<+T> = Fail | Got(value: T, rest: string)

  predicate IsDigit(c: char) {
    '0' <= c <= '9'
  }

  function DigitValue(c: char): nat
    requires IsDigit(c)
  {
    c as int - '0' as int
  }

  predicate AllDigits(s: string) {
    forall i | 0 <= i < |s| :: IsDigit(s[i])
  }

  function LeadingDigits(s: string): (d: string)
    ensures d <= s && AllDigits(d)
  {
    if s == [] || !IsDigit(s[0]) then [] else [s[0]] + LeadingDigits(s[1..])
  }

  function NumberOf(s: string): nat
    requires AllDigits(s)
  {
    if s == [] then 0 else 10 * NumberOf(s[..|s| - 1]) + DigitValue(s[|s| - 1])
  }

  function ParseNat(s: string): (r: Parsed<nat>)
    ensures r.Got? ==> |r.rest| < |s|
  {
    var d := LeadingDigits(s);
    if d == [] || (|d| > 1 && d[0] == '0') then Fail else Got(NumberOf(d), s[|d|..])
  }

  function HexValue(c: char): Option<nat> {
    if IsDigit(c) then Some(DigitValue(c))
    else if 'a' <= c <= 'f' then Some(c as int - 'a' as int + 10)
    else None
  }

  /** One character of a string, escaped or not; the escapes beyond the printed ones are refused. */
  function ParseChar(s: string): (r: Parsed<char>)
    ensures r.Got? ==> |r.rest| < |s|
  {
    if s == [] || s[0] == '\"' || s[0] < ' ' then Fail
    else if s[0] != '\\' then Got(s[0], s[1..])
    else if |s| < 2 then Fail
    else if s[1] == '\"' || s[1] == '\\' then Got(s[1], s[2..])
    else if s[1] == 'n' then Got('\n', s[2..])
    else if s[1] == 'r' then Got('\r', s[2..])
    else if s[1] == 't' then Got('\t', s[2..])
    else if s[1] == 'b' then Got(8 as char, s[2..])
    else if s[1] == 'f' then Got(12 as char, s[2..])
    else if |s| >= 6 && s[..4] == "\\u00" && HexValue(s[4]).Some? && HexValue(s[5]).Some? then
      Got((16 * HexValue(s[4]).value + HexValue(s[5]).value) as char, s[6..])
    else Fail
  }

  function ParseChars(s: string): (r: Parsed<string>)
    ensures r.Got? ==> |r.rest| < |s|
    decreases |s|
  {
    if s == [] then Fail
    else if s[0] == '\"' then Got([], s[1..])
    else
      var first := ParseChar(s);
      if first.Fail? then Fail
      else
        var more := ParseChars(first.rest);
        if more.Fail? then Fail else Got([first.value] + more.value, more.rest)
  }

  function ParseString(s: string): (r: Parsed<string>)
    ensures r.Got? ==> |r.rest| < |s|
  {
    if s == [] || s[0] != '\"' then Fail else ParseChars(s[1..])
  }

  function ParseScalar(s: string): (r: Parsed<Json>)
    ensures r.Got? ==> |r.rest| < |s|
  {
    if Starts(s, 'n') then if "null" <= s then Got(Null, s[4..]) else Fail
    else if Starts(s, 't') then if "true" <= s then Got(Bool(true), s[4..]) else Fail
    else if Starts(s, 'f') then if "false" <= s then Got(Bool(false), s[5..]) else Fail
    else ParseInt(s)
  }

  function ParseInt(s: string): (r: Parsed<Json>)
    ensures r.Got? ==> |r.rest| < |s|
  {
    if Starts(s, '-') then Negated(ParseNat(s[1..]))
    else
      var r := ParseNat(s);
      if r.Fail? then Fail else Got(Int(r.value), r.rest)
  }

  function Negated(r: Parsed<nat>): Parsed<Json> {
    match r
    case Fail => Fail
    case Got(n, rest) => Got(Int(0 - n as int), rest)
  }

  predicate Starts(s: string, c: char) {
    s != [] && s[0] == c
  }

  function Parse(s: string): (r: Parsed<Json>)
    ensures r.Got? ==> |r.rest| < |s|
    decreases |s|, 4
  {
    if Starts(s, '\"') then
      var r := ParseString(s);
      if r.Fail? then Fail else Got(Str(r.value), r.rest)
    else if Starts(s, '[') then ParseArr(s[1..])
    else if Starts(s, '{') then ParseObj(s[1..])
    else ParseScalar(s)
  }

  function ParseArr(s: string): (r: Parsed<Json>)
    ensures r.Got? ==> |r.rest| < |s|
    decreases |s|, 5
  {
    if Starts(s, ']') then Got(Arr(NoItems), s[1..])
    else
      var first := Parse(s);
      if first.Fail? then Fail
      else
        var more := ParseItems(first.rest);
        if more.Fail? then Fail else Got(Arr(Item(first.value, more.value)), more.rest)
  }

  function ParseObj(s: string): (r: Parsed<Json>)
    ensures r.Got? ==> |r.rest| < |s|
    decreases |s|, 5
  {
    if Starts(s, '}') then Got(Obj(NoMembers), s[1..])
    else
      var first := ParseMember(s);
      if first.Fail? then Fail
      else
        var more := ParseMembers(first.rest);
        if more.Fail? then Fail else Got(Obj(Member(first.value.0, first.value.1, more.value)), more.rest)
  }

  function ParseItems(s: string): (r: Parsed<Items>)
    ensures r.Got? ==> |r.rest| < |s|
    decreases |s|, 0
  {
    if Starts(s, ']') then Got(NoItems, s[1..])
    else if !Starts(s, ',') then Fail
    else
      var first := Parse(s[1..]);
      if first.Fail? then Fail
      else
        var more := ParseItems(first.rest);
        if more.Fail? then Fail else Got(Item(first.value, more.value), more.rest)
  }

  function ParseMember(s: string): (r: Parsed<(string, Json)>)
    ensures r.Got? ==> |r.rest| < |s|
    decreases |s|, 3
  {
    var key := ParseString(s);
    if key.Fail? || !Starts(key.rest, ':') then Fail
    else
      var value := Parse(key.rest[1..]);
      if value.Fail? then Fail else Got((key.value, value.value), value.rest)
  }

  function ParseMembers(s: string): (r: Parsed<Members>)
    ensures r.Got? ==> |r.rest| < |s|
    decreases |s|, 0
  {
    if Starts(s, '}') then Got(NoMembers, s[1..])
    else if !Starts(s, ',') then Fail
    else
      var first := ParseMember(s[1..]);
      if first.Fail? then Fail
      else
        var more := ParseMembers(first.rest);
        if more.Fail? then Fail else Got(Member(first.value.0, first.value.1, more.value), more.rest)
  }

  // ----- round trip

  lemma {:induction false} DigitsRoundTrip(n: nat)
    ensures AllDigits(Digits(n)) && NumberOf(Digits(n)) == n && (Digits(n)[0] == '0' ==> n == 0 && |Digits(n)| == 1)
    decreases n
  {
    if n >= 10 {
      DigitsRoundTrip(n / 10);
      var s := Digits(n);
      assert s[..|s| - 1] == Digits(n / 10);
    } else {
      assert Digits(n)[..0] == [];
    }
  }

  /** What may follow a value inside a text: nothing, or something that is not a digit. */
  predicate NoDigitNext(rest: string) {
    rest == [] || !IsDigit(rest[0])
  }

  lemma {:induction false} LeadingDigitsOf(d: string, rest: string)
    requires AllDigits(d) && NoDigitNext(rest)
    ensures LeadingDigits(d + rest) == d
    decreases |d|
  {
    if d == [] {
      assert d + rest == rest;
    } else {
      assert (d + rest)[1..] == d[1..] + rest;
      LeadingDigitsOf(d[1..], rest);
    }
  }

  lemma NatRoundTrip(n: nat, rest: string)
    requires NoDigitNext(rest)
    ensures ParseNat(Digits(n) + rest) == Got(n, rest)
  {
    DigitsRoundTrip(n);
    LeadingDigitsOf(Digits(n), rest);
    assert (Digits(n) + rest)[|Digits(n)|..] == rest;
  }

  lemma CharRoundTrip(c: char, rest: string)
    ensures ParseChar(Escape(c) + rest) == Got(c, rest)
    ensures (Escape(c) + rest)[0] != '\"'
  {
    var s := Escape(c) + rest;
    assert s[|Escape(c)|..] == rest;
    if |Escape(c)| == 6 {
      assert s[..4] == "\\u00" && s[4] == Escape(c)[4] && s[5] == Escape(c)[5];
    }
  }

  lemma {:induction false} CharsRoundTrip(text: string, rest: string)
    ensures ParseChars(EscapeAll(text) + "\"" + rest) == Got(text, rest)
    decreases |text|
  {
    var s := EscapeAll(text) + "\"" + rest;
    if text == [] {
      assert s == "\"" + rest;
      assert s[1..] == rest;
    } else {
      var more := EscapeAll(text[1..]) + "\"" + rest;
      CharsRoundTrip(text[1..], rest);
      CharRoundTrip(text[0], more);
      Regroup(Escape(text[0]), EscapeAll(text[1..]), "\"");
      Regroup(Escape(text[0]), EscapeAll(text[1..]) + "\"", rest);
      assert s == Escape(text[0]) + more;
      HeadAndTail(text);
    }
  }

  lemma StringRoundTrip(text: string, rest: string)
    ensures ParseString(PrintString(text) + rest) == Got(text, rest)
  {
    CharsRoundTrip(text, rest);
    Regroup("\"", EscapeAll(text), "\"");
    OneAfter('\"', EscapeAll(text) + "\"", rest);
  }

  lemma IntRoundTrip(n: int, rest: string)
    requires NoDigitNext(rest)
    ensures Parse(PrintInt(n) + rest) == Got(Int(n), rest)
  {
    if n < 0 {
      var s := Digits(-n) + rest;
      NatRoundTrip(-n, rest);
      Regroup("-", Digits(-n), rest);
      MinusFirst(s);
    } else {
      DigitsRoundTrip(n);
      NatRoundTrip(n, rest);
      DigitFirst(Digits(n) + rest);
    }
  }

  lemma MinusFirst(s: string)
    ensures Parse("-" + s) == Negated(ParseNat(s))
  {
    IntFirst("-" + s);
    assert ("-" + s)[1..] == s;
  }

  lemma DigitFirst(s: string)
    requires s != [] && IsDigit(s[0]) && ParseNat(s).Got?
    ensures Parse(s) == Got(Int(ParseNat(s).value), ParseNat(s).rest)
  {
    IntFirst(s);
  }

  lemma IntFirst(s: string)
    requires s != [] && (IsDigit(s[0]) || s[0] == '-')
    ensures Parse(s) == ParseInt(s)
  {
    assert !Starts(s, '\"') && !Starts(s, '[') && !Starts(s, '{');
    assert Parse(s) == ParseScalar(s);
  }

  /** Printing then parsing returns the value and leaves what followed it. */
  lemma {:induction false} PrintThenParse(v: Json, rest: string)
    requires NoDigitNext(rest)
    ensures Parse(Print(v) + rest) == Got(v, rest)
    decreases v, 0
  {
    match v {
      case Null =>
        AfterPrefix("null", rest);
      case Bool(flag) =>
        AfterPrefix(if flag then "true" else "false", rest);
      case Int(n) =>
        IntRoundTrip(n, rest);
      case Str(text) =>
        StringRoundTrip(text, rest);
        assert Starts(PrintString(text) + rest, '\"');
      case Arr(items) =>
        ArrRoundTrip(items, rest);
        OneAfter('[', PrintArr(items), rest);
      case Obj(members) =>
        ObjRoundTrip(members, rest);
        OneAfter('{', PrintObj(members), rest);
    }
  }

  lemma AfterPrefix(a: string, rest: string)
    ensures a <= a + rest && (a + rest)[|a|..] == rest
  {
  }

  lemma OneAfter(c: char, a: string, rest: string)
    ensures Starts([c] + a + rest, c) && ([c] + a + rest)[1..] == a + rest
  {
    Regroup([c], a, rest);
  }

  lemma {:induction false} ArrRoundTrip(items: Items, rest: string)
    requires NoDigitNext(rest)
    ensures ParseArr(PrintArr(items) + rest) == Got(Arr(items), rest)
    decreases items, 0
  {
    match items {
      case NoItems =>
        AfterPrefix("]", rest);
      case Item(head, tail) =>
        var more := PrintItems(tail) + rest;
        ItemsRoundTrip(tail, rest);
        PrintThenParse(head, more);
        PrintStarts(head, more);
        Regroup(Print(head), PrintItems(tail), rest);
    }
  }

  lemma {:induction false} ObjRoundTrip(members: Members, rest: string)
    requires NoDigitNext(rest)
    ensures ParseObj(PrintObj(members) + rest) == Got(Obj(members), rest)
    decreases members, 0
  {
    match members {
      case NoMembers =>
        AfterPrefix("}", rest);
      case Member(key, value, tail) =>
        var more := PrintMembers(tail) + rest;
        var front := PrintString(key) + ":" + Print(value);
        MembersRoundTrip(tail, rest);
        MemberRoundTrip(key, value, more);
        Regroup(front, PrintMembers(tail), rest);
        assert Starts(front + more, '\"');
    }
  }

  /** No value starts with a closing bracket. */
  lemma PrintStarts(v: Json, rest: string)
    ensures Print(v) != [] && Print(v)[0] != ']' && (Print(v) + rest)[0] != ']'
  {
    if v.Int? && v.n >= 0 {
      DigitsRoundTrip(v.n);
    }
  }

  lemma {:induction false} ItemsRoundTrip(items: Items, rest: string)
    ensures ParseItems(PrintItems(items) + rest) == Got(items, rest)
    ensures NoDigitNext(PrintItems(items) + rest)
    decreases items, 0
  {
    match items {
      case NoItems =>
        AfterPrefix("]", rest);
      case Item(head, tail) =>
        var more := PrintItems(tail) + rest;
        ItemsRoundTrip(tail, rest);
        PrintThenParse(head, more);
        Regroup("," + Print(head), PrintItems(tail), rest);
        OneAfter(',', Print(head), more);
    }
  }

  lemma {:induction false} MemberRoundTrip(key: string, value: Json, rest: string)
    requires NoDigitNext(rest)
    ensures ParseMember(PrintString(key) + ":" + Print(value) + rest) == Got((key, value), rest)
    decreases value, 1
  {
    var after := ":" + Print(value) + rest;
    StringRoundTrip(key, after);
    Regroup(PrintString(key), ":", Print(value));
    Regroup(PrintString(key), ":" + Print(value), rest);
    OneAfter(':', Print(value), rest);
    PrintThenParse(value, rest);
  }

  lemma {:induction false} MembersRoundTrip(members: Members, rest: string)
    ensures ParseMembers(PrintMembers(members) + rest) == Got(members, rest)
    ensures NoDigitNext(PrintMembers(members) + rest)
    decreases members, 0
  {
    match members {
      case NoMembers =>
        AfterPrefix("}", rest);
      case Member(key, value, tail) =>
        var more := PrintMembers(tail) + rest;
        var front := PrintString(key) + ":" + Print(value);
        MembersRoundTrip(tail, rest);
        MemberRoundTrip(key, value, more);
        CommaFront(key, value, PrintMembers(tail), rest);
        OneAfter(',', front, more);
    }
  }

  lemma CommaFront(key: string, value: Json, tail: string, rest: string)
    ensures "," + PrintString(key) + ":" + Print(value) + tail + rest ==
            "," + (PrintString(key) + ":" + Print(value)) + (tail + rest)
  {
    Regroup(",", PrintString(key), ":");
    Regroup(",", PrintString(key) + ":", Print(value));
    Regroup("," + PrintString(key) + ":" + Print(value), tail, rest);
  }

  /** Only the quotation mark, the reverse solidus and the control characters are escaped, each as briefly as it can. */
  lemma EscapeLength(c: char)
    ensures |Escape(c)| == 1 <==> c >= ' ' && c != '\"' && c != '\\'
    ensures |Escape(c)| == 2 <==> c in "\"\\\n\r\t" || c as int == 8 || c as int == 12
    ensures |Escape(c)| == 1 || |Escape(c)| == 2 || |Escape(c)| == 6
  {
  }

  /** A number is printed with a sign exactly if it is negative. */
  lemma IntSign(n: int)
    ensures PrintInt(n)[0] == '-' <==> n < 0
  {
    if n >= 0 {
      DigitsRoundTrip(n);
      assert IsDigit(Digits(n)[0]);
    }
  }

  lemma PrintInjective(v: Json, w: Json)
    requires Print(v) == Print(w)
    ensures v == w
  {
    PrintThenParse(v, []);
    PrintThenParse(w, []);
    assert Print(v) + [] == Print(w) + [];
  }

  // ----- key order

  predicate Before(a: string, b: string) {
    b != [] && (a == [] || a[0] < b[0] || (a[0] == b[0] && Before(a[1..], b[1..])))
  }

  lemma {:induction false} BeforeTotal(a: string, b: string)
    ensures a == b || Before(a, b) || Before(b, a)
    ensures !(Before(a, b) && Before(b, a)) && (Before(a, b) ==> a != b)
    decreases |a|
  {
    if a != [] && b != [] {
      BeforeTotal(a[1..], b[1..]);
      HeadAndTail(a);
      HeadAndTail(b);
    }
  }

  lemma {:induction false} BeforeTransitive(a: string, b: string, c: string)
    requires Before(a, b) && Before(b, c)
    ensures Before(a, c)
    decreases |a|
  {
    if a != [] && a[0] == b[0] && b[0] == c[0] {
      BeforeTransitive(a[1..], b[1..], c[1..]);
    }
  }

  function Insert(key: string, value: Json, members: Members): Members {
    match members
    case NoMembers => Member(key, value, NoMembers)
    case Member(k, v, rest) =>
      if Before(key, k) then Member(key, value, members) else Member(k, v, Insert(key, value, rest))
  }

  /** `sort_keys` and `canonicalValue`: the same value with the members of every object in key order. */
  function Canonical(v: Json): Json {
    match v
    case Arr(items) => Arr(CanonicalItems(items))
    case Obj(members) => Obj(CanonicalMembers(members))
    case _ => v
  }

  function CanonicalItems(items: Items): Items {
    match items
    case NoItems => NoItems
    case Item(head, tail) => Item(Canonical(head), CanonicalItems(tail))
  }

  function CanonicalMembers(members: Members): Members {
    match members
    case NoMembers => NoMembers
    case Member(key, value, rest) => Insert(key, Canonical(value), CanonicalMembers(rest))
  }

  function Keys(members: Members): set<string> {
    match members
    case NoMembers => {}
    case Member(key, _, rest) => {key} + Keys(rest)
  }

  function Lookup(members: Members, key: string): Option<Json> {
    match members
    case NoMembers => None
    case Member(k, v, rest) => if k == key then Some(v) else Lookup(rest, key)
  }

  /** No object has a key twice: what a Python or JavaScript object is. */
  predicate WellKeyed(v: Json) {
    match v
    case Arr(items) => WellKeyedItems(items)
    case Obj(members) => WellKeyedMembers(members)
    case _ => true
  }

  predicate WellKeyedItems(items: Items) {
    match items
    case NoItems => true
    case Item(head, tail) => WellKeyed(head) && WellKeyedItems(tail)
  }

  predicate WellKeyedMembers(members: Members) {
    match members
    case NoMembers => true
    case Member(key, value, rest) => key !in Keys(rest) && WellKeyed(value) && WellKeyedMembers(rest)
  }

  /** Equal up to the order in which the members of objects are held. */
  predicate Same(v: Json, w: Json) {
    match v
    case Arr(items) => w.Arr? && SameItems(items, w.items)
    case Obj(members) => w.Obj? && Keys(members) == Keys(w.members) && SameMembers(members, w.members)
    case _ => v == w
  }

  predicate SameItems(a: Items, b: Items) {
    match a
    case NoItems => b.NoItems?
    case Item(head, tail) => b.Item? && Same(head, b.head) && SameItems(tail, b.tail)
  }

  /** Every member of `a` has an equal value in `b`. */
  predicate SameMembers(a: Members, b: Members) {
    match a
    case NoMembers => true
    case Member(key, value, rest) =>
      Lookup(b, key).Some? && Same(value, Lookup(b, key).value) && SameMembers(rest, b)
  }

  predicate Sorted(members: Members) {
    match members
    case NoMembers => true
    case Member(key, _, rest) => (rest.Member? ==> Before(key, rest.key)) && Sorted(rest)
  }

  lemma {:induction false} LookupKeys(members: Members, key: string)
    ensures Lookup(members, key).Some? <==> key in Keys(members)
    decreases members
  {
    if members.Member? {
      LookupKeys(members.rest, key);
    }
  }

  lemma {:induction false} InsertFacts(key: string, value: Json, members: Members)
    requires Sorted(members) && key !in Keys(members)
    ensures Sorted(Insert(key, value, members)) && Keys(Insert(key, value, members)) == Keys(members) + {key}
    ensures forall k :: Lookup(Insert(key, value, members), k) == if k == key then Some(value) else Lookup(members, k)
    decreases members
  {
    if members.Member? && !Before(key, members.key) {
      BeforeTotal(key, members.key);
      InsertFacts(key, value, members.rest);
    }
  }

  /** Sorting the members keeps their keys, and each key keeps its value in canonical form. */
  lemma {:induction false} CanonicalFacts(members: Members)
    requires WellKeyedMembers(members)
    ensures Sorted(CanonicalMembers(members)) && Keys(CanonicalMembers(members)) == Keys(members)
    ensures forall k | Lookup(members, k).Some? ::
              Lookup(CanonicalMembers(members), k) == Some(Canonical(Lookup(members, k).value))
    decreases members
  {
    if members.Member? {
      CanonicalFacts(members.rest);
      InsertFacts(members.key, Canonical(members.value), CanonicalMembers(members.rest));
    }
  }

  /** `a` is a proper prefix of `b`, or has the smaller character at the first place where they differ. */
  ghost predicate Ascends(a: string, b: string) {
    exists n :: DiffersAt(a, b, n)
  }

  predicate DiffersAt(a: string, b: string, n: nat) {
    n <= |a| && n < |b| && a[..n] == b[..n] && (n < |a| ==> a[n] < b[n])
  }

  lemma FirstAgrees(a: string, b: string, n: nat)
    requires DiffersAt(a, b, n) && a != []
    ensures a[0] <= b[0]
  {
    if n > 0 {
      assert a[..n][0] == b[..n][0];
    }
  }

  lemma {:induction false} BeforeAscends(a: string, b: string)
    ensures Before(a, b) <==> Ascends(a, b)
    decreases |a|
  {
    if a == [] {
      assert b != [] ==> DiffersAt(a, b, 0);
    } else if b != [] && a[0] < b[0] {
      assert DiffersAt(a, b, 0);
    } else if b != [] && a[0] == b[0] {
      BeforeAscends(a[1..], b[1..]);
      if n: nat :| DiffersAt(a[1..], b[1..], n) {
        assert a[..n + 1] == [a[0]] + a[1..][..n] && b[..n + 1] == [b[0]] + b[1..][..n];
        assert DiffersAt(a, b, n + 1);
      }
      if n: nat :| DiffersAt(a, b, n) {
        assert n > 0 && a[1..][..n - 1] == a[..n][1..] && b[1..][..n - 1] == b[..n][1..];
        assert DiffersAt(a[1..], b[1..], n - 1);
      }
    } else if n: nat :| DiffersAt(a, b, n) {
      FirstAgrees(a, b, n);
    }
  }

  /** In every object of the value, at any depth, the keys ascend from each member to the next. */
  ghost predicate Ordered(v: Json) {
    match v
    case Arr(items) => OrderedItems(items)
    case Obj(members) => OrderedMembers(members)
    case _ => true
  }

  ghost predicate OrderedItems(items: Items) {
    match items
    case NoItems => true
    case Item(head, tail) => Ordered(head) && OrderedItems(tail)
  }

  ghost predicate OrderedMembers(members: Members) {
    match members
    case NoMembers => true
    case Member(key, value, rest) =>
      Ordered(value) && (rest.Member? ==> Ascends(key, rest.key)) && OrderedMembers(rest)
  }

  lemma {:induction false} InsertOrdered(key: string, value: Json, members: Members)
    requires OrderedMembers(members) && Ordered(value) && key !in Keys(members)
    ensures OrderedMembers(Insert(key, value, members))
    decreases members
  {
    if members.Member? {
      BeforeAscends(key, members.key);
      BeforeAscends(members.key, key);
      BeforeTotal(key, members.key);
      if !Before(key, members.key) {
        InsertOrdered(key, value, members.rest);
      }
    }
  }

  lemma {:induction false} CanonicalOrdered(v: Json)
    requires WellKeyed(v)
    ensures Ordered(Canonical(v))
    decreases v, 1
  {
    match v
    case Arr(items) => ItemsOrdered(items);
    case Obj(members) => MembersOrdered(members);
    case _ =>
  }

  lemma {:induction false} ItemsOrdered(items: Items)
    requires WellKeyedItems(items)
    ensures OrderedItems(CanonicalItems(items))
    decreases items, 0
  {
    if items.Item? {
      CanonicalOrdered(items.head);
      ItemsOrdered(items.tail);
    }
  }

  lemma {:induction false} MembersOrdered(members: Members)
    requires WellKeyedMembers(members)
    ensures OrderedMembers(CanonicalMembers(members))
    decreases members, 0
  {
    if members.Member? {
      CanonicalOrdered(members.value);
      MembersOrdered(members.rest);
      CanonicalFacts(members.rest);
      InsertOrdered(members.key, Canonical(members.value), CanonicalMembers(members.rest));
    }
  }

  lemma {:induction false} SortedHeadFirst(members: Members, key: string)
    requires Sorted(members) && members.Member? && key in Keys(members.rest)
    ensures Before(members.key, key)
    decreases members
  {
    if members.rest.key != key {
      SortedHeadFirst(members.rest, key);
      BeforeTransitive(members.key, members.rest.key, key);
    }
  }

  lemma SortedHeadUnique(a: Members, b: Members)
    requires Sorted(a) && Sorted(b) && Keys(a) == Keys(b) && a.Member?
    ensures b.Member? && a.key == b.key && Keys(a.rest) == Keys(b.rest)
  {
    assert a.key in Keys(b);
    if a.key != b.key {
      assert b.key in Keys(a.rest) && a.key in Keys(b.rest);
      SortedHeadFirst(a, b.key);
      SortedHeadFirst(b, a.key);
      BeforeTotal(a.key, b.key);
    }
    NotInOwnRest(a);
    NotInOwnRest(b);
    assert Keys(a.rest) == Keys(a) - {a.key} && Keys(b.rest) == Keys(b) - {b.key};
  }

  lemma NotInOwnRest(members: Members)
    requires Sorted(members) && members.Member?
    ensures members.key !in Keys(members.rest)
  {
    if members.key in Keys(members.rest) {
      SortedHeadFirst(members, members.key);
      BeforeTotal(members.key, members.key);
    }
  }

  /** Two sorted member lists with the same keys and values are the same list. */
  lemma {:induction false} SortedUnique(a: Members, b: Members)
    requires Sorted(a) && Sorted(b) && Keys(a) == Keys(b)
    requires forall k | k in Keys(a) :: Lookup(a, k) == Lookup(b, k)
    ensures a == b
    decreases a
  {
    if a.Member? {
      SortedHeadUnique(a, b);
      NotInOwnRest(a);
      assert Lookup(a, a.key) == Lookup(b, a.key);
      forall k | k in Keys(a.rest)
        ensures Lookup(a.rest, k) == Lookup(b.rest, k)
      {
        assert Lookup(a, k) == Lookup(b, k);
      }
      SortedUnique(a.rest, b.rest);
    } else {
      if b.Member? {
        assert false;
      }
    }
  }

  /** The canonical forms agree exactly when the values are equal up to member order. */
  lemma {:induction false} CanonicalIff(v: Json, w: Json)
    requires WellKeyed(v) && WellKeyed(w)
    ensures Canonical(v) == Canonical(w) <==> Same(v, w)
    decreases v, 1
  {
    match v {
      case Arr(items) =>
        if w.Arr? {
          ItemsIff(items, w.items);
        }
      case Obj(members) =>
        if w.Obj? {
          ObjectsIff(members, w.members);
        }
      case _ =>
    }
  }

  lemma {:induction false} ItemsIff(a: Items, b: Items)
    requires WellKeyedItems(a) && WellKeyedItems(b)
    ensures CanonicalItems(a) == CanonicalItems(b) <==> SameItems(a, b)
    decreases a, 1
  {
    if a.Item? && b.Item? {
      CanonicalIff(a.head, b.head);
      ItemsIff(a.tail, b.tail);
    }
  }

  lemma {:induction false} ObjectsIff(a: Members, b: Members)
    requires WellKeyedMembers(a) && WellKeyedMembers(b)
    ensures CanonicalMembers(a) == CanonicalMembers(b) <==> Keys(a) == Keys(b) && SameMembers(a, b)
    decreases a, 1
  {
    var x, y := CanonicalMembers(a), CanonicalMembers(b);
    CanonicalFacts(a);
    CanonicalFacts(b);
    if Keys(a) == Keys(b) {
      MembersIff(a, b);
      if SameMembers(a, b) {
        forall k | k in Keys(x)
          ensures Lookup(x, k) == Lookup(y, k)
        {
          LookupKeys(a, k);
        }
        SortedUnique(x, y);
      } else if x == y {
        forall k | k in Keys(a)
          ensures Agrees(a, b, k)
        {
          LookupKeys(a, k);
          LookupKeys(b, k);
        }
      }
    }
  }

  /** Both lists hold `k`, with values of the same canonical form. */
  predicate Agrees(a: Members, b: Members, k: string) {
    Lookup(a, k).Some? && Lookup(b, k).Some? && Canonical(Lookup(a, k).value) == Canonical(Lookup(b, k).value)
  }

  lemma {:induction false} MembersIff(a: Members, b: Members)
    requires WellKeyedMembers(a) && WellKeyedMembers(b)
    ensures SameMembers(a, b) <==> forall k | k in Keys(a) :: Agrees(a, b, k)
    decreases a, 0
  {
    if a.Member? {
      MembersIff(a.rest, b);
      var other := Lookup(b, a.key);
      if other.Some? {
        LookupWellKeyed(b, a.key);
        CanonicalIff(a.value, other.value);
      }
      assert Agrees(a, b, a.key) <==> other.Some? && Same(a.value, other.value);
      RestAgrees(a, b);
    }
  }

  lemma RestAgrees(a: Members, b: Members)
    requires a.Member? && a.key !in Keys(a.rest)
    ensures (forall k | k in Keys(a) :: Agrees(a, b, k)) <==>
            Agrees(a, b, a.key) && forall k | k in Keys(a.rest) :: Agrees(a.rest, b, k)
  {
    forall k | k in Keys(a.rest)
      ensures Agrees(a, b, k) == Agrees(a.rest, b, k)
    {
      assert k != a.key;
    }
    if forall k | k in Keys(a) :: Agrees(a, b, k) {
      forall k | k in Keys(a.rest)
        ensures Agrees(a.rest, b, k)
      {
        assert k in Keys(a) && Agrees(a, b, k);
      }
    }
  }

  lemma {:induction false} LookupWellKeyed(members: Members, key: string)
    requires WellKeyedMembers(members) && Lookup(members, key).Some?
    ensures WellKeyed(Lookup(members, key).value)
    decreases members
  {
    if members.key != key {
      LookupWellKeyed(members.rest, key);
    }
  }

  // ----- the program hash

  const HASH_KEY := "program_sha256"

  /** `value.pop("program_sha256", None)` on a copy. */
  function Without(members: Members, key: string): Members {
    match members
    case NoMembers => NoMembers
    case Member(k, v, rest) => if k == key then Without(rest, key) else Member(k, v, Without(rest, key))
  }

  function CanonicalText(v: Json): string {
    Print(Canonical(v))
  }

  /** What is hashed: the canonical text of the program without its own hash. */
  function HashedText(program: Members): string {
    CanonicalText(Obj(Without(program, HASH_KEY)))
  }

  /** Two values have one canonical text exactly when they are equal up to the order of object members. */
  lemma CanonicalTextIff(v: Json, w: Json)
    requires WellKeyed(v) && WellKeyed(w)
    ensures CanonicalText(v) == CanonicalText(w) <==> Same(v, w)
  {
    CanonicalIff(v, w);
    if CanonicalText(v) == CanonicalText(w) {
      PrintInjective(Canonical(v), Canonical(w));
    }
  }

  /** What the canonical text of a value says, read back, has every object's keys in ascending order. */
  lemma CanonicalTextOrdered(v: Json)
    requires WellKeyed(v)
    ensures var r := Parse(CanonicalText(v)); r.Got? && r.rest == [] && Ordered(r.value)
  {
    PrintThenParse(Canonical(v), []);
    assert Print(Canonical(v)) + [] == CanonicalText(v);
    CanonicalOrdered(v);
  }

  lemma {:induction false} WithoutFacts(members: Members, key: string)
    requires WellKeyedMembers(members)
    ensures WellKeyedMembers(Without(members, key)) && Keys(Without(members, key)) == Keys(members) - {key}
    ensures forall k | k != key :: Lookup(Without(members, key), k) == Lookup(members, k)
    decreases members
  {
    if members.Member? {
      WithoutFacts(members.rest, key);
    }
  }

  /** The hashed text determines the program up to member order and its own hash field, and nothing less does. */
  lemma HashedTextIff(p: Members, q: Members)
    requires WellKeyedMembers(p) && WellKeyedMembers(q)
    ensures HashedText(p) == HashedText(q) <==>
            Keys(p) - {HASH_KEY} == Keys(q) - {HASH_KEY} &&
            forall k | k in Keys(p) && k != HASH_KEY :: Agrees(p, q, k)
  {
    var a, b := Without(p, HASH_KEY), Without(q, HASH_KEY);
    WithoutFacts(p, HASH_KEY);
    WithoutFacts(q, HASH_KEY);
    CanonicalTextIff(Obj(a), Obj(b));
    MembersIff(a, b);
    forall k | k in Keys(a)
      ensures Agrees(a, b, k) <==> Agrees(p, q, k)
    {
    }
  }
}
