/**
 Query building of `internal/commands/read_dispatcher.go`: the params object of
 a read command becomes "?k=v&..." with its keys in order, and numbers are
 printed with six decimals and then trimmed.
 */
module Query {
  import opened Common

  // ----- decimal text -----

  /** A JSON number as "%f" shows it: a sign and a magnitude in millionths. */
  datatype Number = Number(negative: bool, millionths: nat)

  function DigitChar(d: nat): (c: char)
    requires d < 10
    ensures '0' <= c <= '9'
  {
    '0' + d as char
  }

  function DigitOf(c: char): (d: nat)
    requires '0' <= c <= '9'
    ensures d < 10
  {
    (c - '0') as nat
  }

  /** The value of a digit string, read left to right. */
  function Value(s: string): nat
    requires Decimal(s)
  {
    if s == "" then 0 else 10 * Value(s[..|s| - 1]) + DigitOf(s[|s| - 1])
  }

  function Pow10(n: nat): (p: nat)
    ensures p > 0
  {
    if n == 0 then 1 else 10 * Pow10(n - 1)
  }

  /** At least `width` digits of n, most significant first. */
  function Print(n: nat, width: nat): (s: string)
    ensures Decimal(s) && Value(s) == n
    ensures |s| >= width && (n < Pow10(width) ==> |s| == width)
    decreases n, width
  {
    if n == 0 && width == 0 then ""
    else
      var front := Print(n / 10, if width == 0 then 0 else width - 1);
      front + [DigitChar(n % 10)]
  }

  const MILLION: nat := 1_000_000

  /** The text "%f" gives: sign, whole part, dot, six decimals. */
  function Fixed6(x: Number): string {
    Sign(x.negative) + Print(x.millionths / MILLION, 1) + "." + Print(x.millionths % MILLION, 6)
  }

  /** strings.TrimRight(s, c) for a single character. */
  function TrimRight(s: string, c: char): (t: string)
    ensures t <= s && (t != "" ==> t[|t| - 1] != c)
    ensures forall i :: |t| <= i < |s| ==> s[i] == c
  {
    if s != "" && s[|s| - 1] == c then TrimRight(s[..|s| - 1], c) else s
  }

  function Shown(x: Number): string { TrimRight(TrimRight(Fixed6(x), '0'), '.') }

  /** The magnitude in millionths of a whole part and at most six fraction digits. */
  function Millionths(whole: string, fraction: string): nat
    requires Decimal(whole) && Decimal(fraction) && |fraction| <= 6
  {
    Value(whole) * MILLION + Value(fraction) * Pow10(6 - |fraction|)
  }

  function ReadUnsigned(body: string): Option<nat> {
    var dot := IndexOf(body, '.');
    var whole := body[..dot];
    var fraction := if dot < |body| then body[dot + 1..] else "";
    if whole == "" || !Decimal(whole) || !Decimal(fraction) || |fraction| > 6 || (dot < |body| && fraction == "") then
      None
    else Some(Millionths(whole, fraction))
  }

  /** Reads a decimal numeral with at most six fraction digits; the sign of zero is kept. */
  function Read(s: string): Option<Number> {
    var negative := s != "" && s[0] == '-';
    match ReadUnsigned(if negative then s[1..] else s)
    case Some(m) => Some(Number(negative, m))
    case None => None
  }

  function IndexOf(s: string, c: char): (k: nat)
    ensures k <= |s| && c !in s[..k] && (k < |s| ==> s[k] == c)
  {
    if s == "" || s[0] == c then 0 else IndexOf(s[1..], c) + 1
  }

  // ----- trimming loses nothing -----

  lemma {:induction false} TrimKeepsValue(f: string)
    requires Decimal(f)
    ensures Decimal(TrimRight(f, '0'))
    ensures Value(f) == Value(TrimRight(f, '0')) * Pow10(|f| - |TrimRight(f, '0')|)
  {
    if f != "" && f[|f| - 1] == '0' {
      TrimKeepsValue(f[..|f| - 1]);
      var t := TrimRight(f, '0');
      TenTimes(Value(t), |f| - |t|);
    }
  }

  lemma TenTimes(v: nat, n: nat)
    requires n > 0
    ensures 10 * (v * Pow10(n - 1)) == v * Pow10(n)
  {
    var p := Pow10(n - 1);
    assert Pow10(n) == 10 * p;
    assert 10 * (v * p) == v * (10 * p);
  }

  lemma {:induction false} TrimStopsAtDot(w: string, f: string)
    ensures TrimRight(w + "." + f, '0') == w + "." + TrimRight(f, '0')
  {
    var s := w + "." + f;
    if f != "" && f[|f| - 1] == '0' {
      assert s[..|s| - 1] == w + "." + f[..|f| - 1];
      TrimStopsAtDot(w, f[..|f| - 1]);
    } else {
      assert s[|s| - 1] == if f == "" then '.' else f[|f| - 1];
    }
  }

  lemma {:induction false} IndexOfJoin(w: string, c: char, rest: string)
    requires c !in w
    ensures IndexOf(w + [c] + rest, c) == |w| && IndexOf(w, c) == |w|
  {
    if w == "" {
      assert w + [c] + rest == [c] + rest;
    } else {
      assert (w + [c] + rest)[1..] == w[1..] + [c] + rest;
      IndexOfJoin(w[1..], c, rest);
    }
  }

  function Sign(negative: bool): string { if negative then "-" else "" }

  function Fraction(t: string): string { if t == "" then "" else "." + t }

  lemma LastOf(a: string, b: string)
    requires b != ""
    ensures (a + b)[|a + b| - 1] == b[|b| - 1]
  {
  }

  lemma Absent2(c: char, a: string, b: string)
    requires c !in a && c !in b
    ensures c !in a + b
  {
  }

  lemma TrimLastDot(s: string)
    requires s != "" && s[|s| - 1] != '.'
    ensures TrimRight(s, '.') == s && TrimRight(s + ".", '.') == s
  {
    LastOf(s, ".");
    assert (s + ".")[..|s|] == s;
  }

  /** Nothing is left of the fraction: the dot goes too. */
  lemma TrimWhole(u: string, f: string)
    requires u != "" && u[|u| - 1] != '.' && TrimRight(f, '0') == ""
    ensures TrimRight(TrimRight(u + "." + f, '0'), '.') == u
  {
    TrimStopsAtDot(u, f);
    assert u + "." + "" == u + ".";
    TrimLastDot(u);
  }

  /** Digits are left: the dot stays. */
  lemma TrimFraction(u: string, f: string, t: string)
    requires Decimal(f) && t == TrimRight(f, '0') && t != ""
    ensures TrimRight(TrimRight(u + "." + f, '0'), '.') == u + "." + t
  {
    TrimStopsAtDot(u, f);
    assert t[|t| - 1] == f[|t| - 1];
    LastOf(u + ".", t);
    TrimLastDot(u + "." + t);
  }

  /** What the two trims leave: the whole part, and the fraction without its trailing zeros if any digit is left. */
  lemma TrimNumeral(sign: string, w: string, f: string)
    requires w != "" && Decimal(w) && Decimal(f)
    ensures TrimRight(TrimRight(sign + w + "." + f, '0'), '.') == sign + (w + Fraction(TrimRight(f, '0')))
  {
    var t := TrimRight(f, '0');
    if t == "" {
      LastOf(sign, w);
      assert '0' <= w[|w| - 1] <= '9';
      TrimWhole(sign + w, f);
      assert w + Fraction(t) == w;
    } else {
      TrimFraction(sign + w, f, t);
      Regroup(sign, w, ".", t);
    }
  }

  lemma Regroup(a: string, b: string, c: string, d: string)
    ensures a + b + c + d == a + (b + (c + d))
  {
  }

  lemma NoDot(w: string)
    requires Decimal(w)
    ensures '.' !in w
  {
    forall i | 0 <= i < |w| ensures w[i] != '.' { assert '0' <= w[i] <= '9'; }
  }

  /** Reading a numeral that has at most six fraction digits. */
  lemma ReadNumeral(w: string, t: string)
    requires w != "" && Decimal(w) && Decimal(t) && |t| <= 6
    ensures ReadUnsigned(w + Fraction(t)) == Some(Millionths(w, t))
  {
    NoDot(w);
    IndexOfJoin(w, '.', t);
    if t == "" {
      assert w + Fraction(t) == w && w[..|w|] == w;
    } else {
      SliceJoin(w, '.', t);
      assert w + Fraction(t) == w + ['.'] + t;
    }
  }

  lemma SliceJoin(w: string, c: char, t: string)
    ensures (w + [c] + t)[..|w|] == w && (w + [c] + t)[|w| + 1..] == t
  {
  }

  lemma ReadSigned(negative: bool, body: string)
    requires body != "" && body[0] != '-' && ReadUnsigned(body).Some?
    ensures Read(Sign(negative) + body) == Some(Number(negative, ReadUnsigned(body).value))
  {
    var s := Sign(negative) + body;
    if negative {
      assert s[0] == '-' && s[1..] == body;
    } else {
      assert s == body;
    }
  }

  lemma SixDigits(n: nat)
    requires n < MILLION
    ensures |Print(n, 6)| == 6
  {
    assert Pow10(6) == MILLION by {
      assert Pow10(2) == 100;
      assert Pow10(4) == 10_000;
    }
  }

  lemma TrimmedSix(m: nat, t: string)
    requires m < MILLION && t == TrimRight(Print(m, 6), '0')
    ensures Decimal(t) && |t| <= 6 && Value(t) * Pow10(6 - |t|) == m
  {
    SixDigits(m);
    TrimKeepsValue(Print(m, 6));
  }

  lemma SplitMillionths(n: nat, t: string)
    requires t == TrimRight(Print(n % MILLION, 6), '0')
    ensures Decimal(t) && |t| <= 6 && Millionths(Print(n / MILLION, 1), t) == n
  {
    var whole, m := n / MILLION, n % MILLION;
    TrimmedSix(m, t);
    assert whole * MILLION + m == n;
  }

  /** The shape of the shown text: sign, whole part, and what is left of the fraction. */
  lemma ShownShape(x: Number) returns (w: string, t: string)
    ensures w != "" && Decimal(w) && Decimal(t) && |t| <= 6 && (t != "" ==> t[|t| - 1] != '0')
    ensures Shown(x) == Sign(x.negative) + (w + Fraction(t))
    ensures Millionths(w, t) == x.millionths
  {
    w := Print(x.millionths / MILLION, 1);
    var f := Print(x.millionths % MILLION, 6);
    t := TrimRight(f, '0');
    SplitMillionths(x.millionths, t);
    TrimNumeral(Sign(x.negative), w, f);
  }

  /** The printed and trimmed text reads back as the same number, sign of zero included. */
  lemma ShownReadsBack(x: Number)
    ensures Read(Shown(x)) == Some(x)
  {
    var w, t := ShownShape(x);
    ReadNumeral(w, t);
    assert '0' <= w[0] <= '9';
    ReadSigned(x.negative, w + Fraction(t));
  }

  /** No fraction ends in a zero and no numeral ends in a dot. */
  predicate Neat(s: string) {
    s != "" && s[|s| - 1] != '.' && ('.' in s ==> s[|s| - 1] != '0')
  }

  lemma NumeralIsNeat(sign: string, w: string, t: string)
    requires '.' !in sign && w != "" && Decimal(w) && Decimal(t) && (t != "" ==> t[|t| - 1] != '0')
    ensures Neat(sign + (w + Fraction(t)))
  {
    NoDot(w);
    if t == "" {
      assert w + Fraction(t) == w;
      LastOf(sign, w);
      Absent2('.', sign, w);
    } else {
      LastOf(".", t);
      LastOf(w, "." + t);
      LastOf(sign, w + ("." + t));
    }
  }

  /** The shown text is neat, and distinct numbers get distinct texts. */
  lemma ShownIsCanonical(x: Number, y: Number)
    ensures Neat(Shown(x))
    ensures Shown(x) == Shown(y) ==> x == y
  {
    var w, t := ShownShape(x);
    NumeralIsNeat(Sign(x.negative), w, t);
    ShownReadsBack(x);
    ShownReadsBack(y);
  }

  // ----- key order -----

  predicate Before(a: string, b: string) {
    b != "" && (a == "" || a[0] < b[0] || (a[0] == b[0] && Before(a[1..], b[1..])))
  }

  lemma {:induction false} BeforeTotal(a: string, b: string)
    ensures Before(a, b) || Before(b, a) || a == b
    ensures !(Before(a, b) && Before(b, a)) && !Before(a, a)
  {
    if a != "" { BeforeTotal(a[1..], if b == "" then "" else b[1..]); }
    if a != "" && b != "" && a[0] == b[0] {
      assert a == [a[0]] + a[1..] && b == [b[0]] + b[1..];
    }
  }

  lemma {:induction false} BeforeTransitive(a: string, b: string, c: string)
    requires Before(a, b) && Before(b, c)
    ensures Before(a, c)
  {
    if a != "" && a[0] == b[0] && b[0] == c[0] { BeforeTransitive(a[1..], b[1..], c[1..]); }
  }

  /** The order is that of the first character in which two strings differ, and a prefix comes first. */
  lemma {:induction false} BeforeExact(a: string, b: string)
    ensures Before(a, b) <==>
              exists n ::
                && 0 <= n <= |a| && n <= |b| && a[..n] == b[..n]
                && if n == |a| then n < |b| else n < |b| && a[n] < b[n]
  {
    if Before(a, b) {
      var n := FirstDifference(a, b);
    }
    if n :|
      && 0 <= n <= |a| && n <= |b| && a[..n] == b[..n]
      && if n == |a| then n < |b| else n < |b| && a[n] < b[n]
    {
      DifferenceOrders(a, b, n);
    }
  }

  lemma {:induction false} FirstDifference(a: string, b: string) returns (n: nat)
    requires Before(a, b)
    ensures n <= |a| && n <= |b| && a[..n] == b[..n]
    ensures if n == |a| then n < |b| else n < |b| && a[n] < b[n]
  {
    n := 0;
    if a != "" && a[0] == b[0] {
      var m := FirstDifference(a[1..], b[1..]);
      n := m + 1;
      assert a[..n] == [a[0]] + a[1..][..m] && b[..n] == [b[0]] + b[1..][..m];
    }
  }

  lemma {:induction false} DifferenceOrders(a: string, b: string, n: nat)
    requires n <= |a| && n <= |b| && a[..n] == b[..n]
    requires if n == |a| then n < |b| else n < |b| && a[n] < b[n]
    ensures Before(a, b)
  {
    if n > 0 {
      assert a[..n][0] == b[..n][0];
      assert a[1..][..n - 1] == a[..n][1..] && b[1..][..n - 1] == b[..n][1..];
      DifferenceOrders(a[1..], b[1..], n - 1);
    }
  }

  predicate Ascending(keys: seq<string>) {
    forall i, j :: 0 <= i < j < |keys| ==> Before(keys[i], keys[j])
  }

  function Elements(keys: seq<string>): set<string> { set k | k in keys }

  /** A set has one ascending enumeration. */
  lemma {:induction false} AscendingUnique(s: seq<string>, t: seq<string>)
    requires Ascending(s) && Ascending(t) && Elements(s) == Elements(t)
    ensures s == t
  {
    NoElements(s);
    NoElements(t);
    if s != [] {
      HeadIsLeast(s, t);
      assert Elements(s[1..]) == Elements(t[1..]) by {
        TailElements(s);
        TailElements(t);
      }
      AscendingUnique(s[1..], t[1..]);
      assert s == [s[0]] + s[1..] && t == [t[0]] + t[1..];
    }
  }

  lemma NoElements(s: seq<string>)
    ensures s == [] <==> Elements(s) == {}
  {
    if s != [] { assert s[0] in Elements(s); }
  }

  lemma HeadIsLeast(s: seq<string>, t: seq<string>)
    requires Ascending(s) && Ascending(t) && s != [] && t != [] && Elements(s) == Elements(t)
    ensures s[0] == t[0]
  {
    assert s[0] in Elements(t) && t[0] in Elements(s);
    var i :| 0 <= i < |t| && t[i] == s[0];
    var j :| 0 <= j < |s| && s[j] == t[0];
    BeforeTotal(s[0], t[0]);
  }

  lemma TailElements(s: seq<string>)
    requires Ascending(s) && s != []
    ensures Elements(s[1..]) == Elements(s) - {s[0]}
  {
    forall k | k in s ensures k == s[0] || k in s[1..] {
      var i :| 0 <= i < |s| && s[i] == k;
      if i > 0 { assert s[1..][i - 1] == k; }
    }
    forall k | k in s[1..] ensures k != s[0] && k in s {
      var i :| 0 <= i < |s[1..]| && s[1..][i] == k;
      assert s[i + 1] == k;
      BeforeTotal(k, k);
    }
  }

  function Insert(key: string, keys: seq<string>): (r: seq<string>)
    ensures Elements(r) == Elements(keys) + {key}
  {
    if keys == [] then [key]
    else if Before(key, keys[0]) then [key] + keys
    else
      assert keys == [keys[0]] + keys[1..];
      var r := Insert(key, keys[1..]);
      assert Elements([keys[0]] + r) == {keys[0]} + Elements(r) && Elements(keys) == {keys[0]} + Elements(keys[1..]);
      [keys[0]] + r
  }

  lemma {:induction false} InsertAscends(key: string, keys: seq<string>)
    requires Ascending(keys) && key !in keys
    ensures Ascending(Insert(key, keys))
  {
    if keys == [] {
    } else if Before(key, keys[0]) {
      forall j | 0 < j < |keys| ensures Before(key, keys[j]) { BeforeTransitive(key, keys[0], keys[j]); }
    } else {
      BeforeTotal(key, keys[0]);
      InsertAscends(key, keys[1..]);
      var r := Insert(key, keys[1..]);
      forall j | 0 <= j < |r| ensures Before(keys[0], r[j]) {
        assert r[j] in Elements(r);
        if r[j] != key { assert r[j] in keys[1..]; }
      }
    }
  }

  /** The keys of a set in ascending order. */
  ghost function InOrder(keys: set<string>): (r: seq<string>)
    ensures Ascending(r) && Elements(r) == keys
  {
    if keys == {} then []
    else
      var k :| k in keys;
      var rest := InOrder(keys - {k});
      assert k !in rest by { assert k !in Elements(rest); }
      InsertAscends(k, rest);
      Insert(k, rest)
  }

  // ----- buildPath -----

  datatype Json = JString(s: string) | JNumber(x: Number) | JBool(b: bool) | JNested

  datatype Params = Absent | NotAnObject | Object(fields: map<string, Json>)

  datatype Built = Path(text: string) | Unsupported(key: string) | NotObject

  function ParamText(v: Json): string
    requires !v.JNested?
  {
    match v
    case JString(s) => s
    case JNumber(x) => Shown(x)
    case JBool(b) => if b then "1" else "0"
  }

  /** What a value becomes: a string itself, a boolean 1 or 0, a number a neat numeral that reads back as the number. */
  lemma ParamTextExact(v: Json)
    requires !v.JNested?
    ensures v.JString? ==> ParamText(v) == v.s
    ensures v.JBool? ==> ParamText(v) == if v.b then "1" else "0"
    ensures v.JNumber? ==> Read(ParamText(v)) == Some(v.x) && Neat(ParamText(v))
  {
    if v.JNumber? {
      ShownReadsBack(v.x);
      ShownIsCanonical(v.x, v.x);
    }
  }

  predicate Flat(fields: map<string, Json>) { forall k :: k in fields ==> !fields[k].JNested? }

  function Pair(key: string, text: string, escape: string -> string): string { escape(key) + "=" + escape(text) }

  /** Pairs are separated, not terminated, by &. */
  function Extend(text: string, pair: string): string { (if text == "" then text else text + "&") + pair }

  /** "k1=v1&k2=v2&..." for the keys in the order given. */
  function QueryText(keys: seq<string>, q: map<string, string>, escape: string -> string): string
    requires Elements(keys) <= q.Keys
  {
    if keys == [] then ""
    else
      var n := |keys| - 1;
      var last := keys[n];
      assert last in Elements(keys) && Elements(keys[..n]) <= Elements(keys);
      Extend(QueryText(keys[..n], q, escape), Pair(last, q[last], escape))
  }

  lemma ExtendMore(head: string, middle: string, pair: string)
    requires middle != ""
    ensures Extend(head + ("&" + middle), pair) == head + ("&" + Extend(middle, pair))
  {
  }

  /** The text of one key and value. */
  function PairOf(key: string, q: map<string, string>, escape: string -> string): string
    requires key in q
  {
    escape(key) + "=" + escape(q[key])
  }

  lemma {:induction false} NotEmpty(keys: seq<string>, q: map<string, string>, escape: string -> string)
    requires Elements(keys) <= q.Keys
    ensures QueryText(keys, q, escape) == "" <==> keys == []
  {
    if keys != [] {
      var n := |keys| - 1;
      QueryStep(keys, n, q, escape);
      assert keys[..n + 1] == keys;
      assert |Pair(keys[n], q[keys[n]], escape)| > 0;
    }
  }

  /** Read from the left: the first key and value escaped, with = between them, then the rest after an &. */
  lemma {:induction false} QueryFromLeft(keys: seq<string>, q: map<string, string>, escape: string -> string)
    requires keys != [] && Elements(keys) <= q.Keys
    ensures keys[0] in q && Elements(keys[1..]) <= q.Keys
    ensures QueryText(keys, q, escape) ==
            PairOf(keys[0], q, escape) + if |keys| == 1 then "" else "&" + QueryText(keys[1..], q, escape)
    decreases |keys|
  {
    assert keys[0] in Elements(keys) && Elements(keys[1..]) <= Elements(keys);
    var n := |keys| - 1;
    QueryStep(keys, n, q, escape);
    assert keys[..n + 1] == keys;
    if n == 0 {
      assert keys[..0] == [];
    } else {
      QueryLonger(keys, q, escape);
    }
  }

  lemma {:induction false} QueryLonger(keys: seq<string>, q: map<string, string>, escape: string -> string)
    requires |keys| > 1 && Elements(keys) <= q.Keys && Elements(keys[1..]) <= q.Keys && keys[0] in q
    ensures QueryText(keys, q, escape) == PairOf(keys[0], q, escape) + ("&" + QueryText(keys[1..], q, escape))
    decreases |keys|, 0
  {
    var n, rest := |keys| - 1, keys[1..];
    var front, middle := keys[..n], keys[1..n];
    QueryStep(keys, n, q, escape);
    assert keys[..n + 1] == keys && front[1..] == middle && rest[..n - 1] == middle && rest[n - 1] == keys[n];
    QueryStep(rest, n - 1, q, escape);
    assert rest[..n] == rest;
    QueryFromLeft(front, q, escape);
    var pair := Pair(keys[n], q[keys[n]], escape);
    NotEmpty(middle, q, escape);
    if n == 1 {
      assert middle == [];
    } else {
      ExtendMore(PairOf(keys[0], q, escape), QueryText(middle, q, escape), pair);
    }
  }

  ghost function Texts(fields: map<string, Json>): map<string, string>
    requires Flat(fields)
  {
    map k | k in fields :: ParamText(fields[k])
  }

  /** The path as a function of the params alone: no iteration order occurs in it. */
  ghost function CanonicalPath(endpoint: string, fields: map<string, Json>, escape: string -> string): string
    requires Flat(fields)
  {
    if fields == map[] then endpoint
    else endpoint + "?" + QueryText(InOrder(fields.Keys), Texts(fields), escape)
  }

  /** The path of a GET with these params, None if they are not supported. */
  ghost function PathOf(endpoint: string, params: Params, escape: string -> string): Option<string> {
    match params
    case Absent => Some(endpoint)
    case NotAnObject => None
    case Object(fields) => if Flat(fields) then Some(CanonicalPath(endpoint, fields, escape)) else None
  }

  /** An order in which a range over the params map may visit its keys. */
  predicate VisitOrder(order: seq<string>, fields: map<string, Json>) {
    Elements(order) == fields.Keys && forall i, j :: 0 <= i < j < |order| ==> order[i] != order[j]
  }

  /** The sorting half of url.Values.Encode. */
  method SortKeys(order: seq<string>) returns (keys: seq<string>)
    requires forall i, j :: 0 <= i < j < |order| ==> order[i] != order[j]
    ensures keys == InOrder(Elements(order))
  {
    keys := [];
    for i := 0 to |order|
      invariant Ascending(keys) && Elements(keys) == Elements(order[..i])
    {
      assert order[i] !in Elements(keys);
      InsertAscends(order[i], keys);
      keys := Insert(order[i], keys);
      assert order[..i + 1] == order[..i] + [order[i]];
    }
    assert order[..|order|] == order;
    AscendingUnique(keys, InOrder(Elements(order)));
  }

  lemma QueryStep(keys: seq<string>, i: nat, q: map<string, string>, escape: string -> string)
    requires i < |keys| && Elements(keys) <= q.Keys
    ensures Elements(keys[..i]) <= q.Keys && Elements(keys[..i + 1]) <= q.Keys && keys[i] in q
    ensures QueryText(keys[..i + 1], q, escape) ==
            Extend(QueryText(keys[..i], q, escape), Pair(keys[i], q[keys[i]], escape))
  {
    assert keys[i] in Elements(keys);
    assert Elements(keys[..i]) <= Elements(keys) && Elements(keys[..i + 1]) <= Elements(keys);
    assert keys[..i + 1][..i] == keys[..i];
  }

  /** url.Values.Encode: sort the keys, then write the pairs with & between them. */
  method Encode(q: map<string, string>, order: seq<string>, escape: string -> string) returns (text: string)
    requires Elements(order) == q.Keys && forall i, j :: 0 <= i < j < |order| ==> order[i] != order[j]
    ensures text == QueryText(InOrder(q.Keys), q, escape)
  {
    var keys := SortKeys(order);
    text := "";
    for i := 0 to |keys|
      invariant Elements(keys[..i]) <= q.Keys
      invariant text == QueryText(keys[..i], q, escape)
    {
      QueryStep(keys, i, q, escape);
      if text != "" { text := text + "&"; }
      text := text + Pair(keys[i], q[keys[i]], escape);
    }
    assert keys[..|keys|] == keys;
  }

  /** The values collected so far: the text of every key already visited. */
  predicate Filled(q: map<string, string>, raw: map<string, Json>, visited: seq<string>) {
    && q.Keys == Elements(visited)
    && forall k :: k in q ==> k in raw && !raw[k].JNested? && q[k] == ParamText(raw[k])
  }

  lemma FilledAll(q: map<string, string>, raw: map<string, Json>, order: seq<string>)
    requires Filled(q, raw, order) && VisitOrder(order, raw)
    ensures Flat(raw) && q == Texts(raw)
  {
    assert q.Keys == raw.Keys;
  }

  /**
   buildPath, visiting the params in whatever order the map range gives.  The
   path depends on the params only; on unsupported values some offending key is
   named, and which one may depend on the order.
   */
  method BuildPath(endpoint: string, params: Params, order: seq<string>, escape: string -> string) returns (r: Built)
    requires params.Object? ==> VisitOrder(order, params.fields)
    ensures r.Path? <==> PathOf(endpoint, params, escape).Some?
    ensures r.Path? ==> Some(r.text) == PathOf(endpoint, params, escape)
    ensures params.NotAnObject? <==> r == NotObject
    ensures params.Absent? || (params.Object? && params.fields == map[]) ==> r == Path(endpoint)
    ensures params.Object? && params.fields != map[] && Flat(params.fields) ==>
              r == Path(endpoint + "?" + QueryText(InOrder(params.fields.Keys), Texts(params.fields), escape))
    ensures params.Object? && !Flat(params.fields) ==>
              r.Unsupported? && r.key in params.fields && params.fields[r.key].JNested?
  {
    if params.Absent? { return Path(endpoint); }
    if params.NotAnObject? { return NotObject; }
    var raw := params.fields;
    if |raw| == 0 {
      assert raw == map[];
      return Path(endpoint);
    }
    assert raw != map[];
    var q: map<string, string> := map[];
    for i := 0 to |order|
      invariant Filled(q, raw, order[..i])
    {
      var k := order[i];
      assert k in Elements(order);
      assert order[..i + 1] == order[..i] + [k];
      if raw[k].JNested? {
        return Unsupported(k);
      }
      q := q[k := ParamText(raw[k])];
    }
    assert order[..|order|] == order;
    FilledAll(q, raw, order);
    var text := Encode(q, order, escape);
    return Path(endpoint + "?" + text);
  }
}
