/**
 JSON values as Python's `json` module reads them, and the text `json.dumps(value, sort_keys=True)`
 writes. The text determines the value.
 */
module Json {
  import opened Texts

  /** A float is known by its `repr`, which Python round-trips: "0.0" and "-0.0" are two floats. */
  type FloatText = s: string | IsFloatText(s) witness "0.0"

  datatype Json =
    | Null
    | Bool(b: bool)
    | Int(n: int)
    | Float(repr: FloatText)
    | Str(s: string)
    | Arr(xs: seq<Json>)
    | Obj(m: map<string, Json>)

  predicate IsDigit(c: char) { '0' <= c <= '9' }

  /** Digits, a sign, and at least one of the marks that no integer has: a point, an exponent, "Infinity". */
  predicate IsFloatText(s: string) {
    && s != "" && (IsDigit(s[0]) || s[0] == '-' || s[0] == 'I')
    && (forall i :: 0 <= i < |s| ==> TokenChar(s[i]))
    && HasMark(s)
  }

  predicate HasMark(s: string) {
    s != "" && ((!IsDigit(s[0]) && s[0] != '-') || HasMark(s[1..]))
  }

  /** The characters of numbers and of the words null, true, false and Infinity. */
  predicate TokenChar(c: char) {
    IsDigit(c) || 'a' <= c <= 'z' || c == 'I' || c == '+' || c == '-' || c == '.'
  }

  // ---- integers

  function Digit(d: nat): char
    requires d < 10
  {
    "0123456789"[d]
  }

  function NatText(n: nat): string {
    if n < 10 then [Digit(n)] else NatText(n / 10) + [Digit(n % 10)]
  }

  function IntText(n: int): string {
    if n < 0 then "-" + NatText(-n) else NatText(n)
  }

  function NatValue(s: string): int {
    if s == "" then 0 else 10 * NatValue(s[..|s| - 1]) + (s[|s| - 1] as int - '0' as int)
  }

  lemma {:induction false} NatTextReads(n: nat)
    ensures NatText(n) != "" && NatValue(NatText(n)) == n
    ensures forall i :: 0 <= i < |NatText(n)| ==> IsDigit(NatText(n)[i])
  {
    if n < 10 {
      assert NatValue([Digit(n)]) == 10 * NatValue("") + n;
    } else {
      NatTextReads(n / 10);
      var s := NatText(n);
      assert s[..|s| - 1] == NatText(n / 10);
    }
  }

  lemma {:induction false} IntTextReads(a: int, b: int)
    requires IntText(a) == IntText(b)
    ensures a == b
  {
    var x, y := if a < 0 then -a else a, if b < 0 then -b else b;
    NatTextReads(x);
    NatTextReads(y);
    assert IsDigit(NatText(x)[0]) && IsDigit(NatText(y)[0]);
    if (a < 0) == (b < 0) {
      assert NatText(x) == IntText(a)[if a < 0 then 1 else 0..];
      assert NatText(y) == IntText(b)[if b < 0 then 1 else 0..];
    }
  }

  // ---- strings

  function Hex(d: nat): char
    requires d < 16
  {
    "0123456789abcdef"[d]
  }

  /** `\uXXXX` */
  function Escape4(n: nat): (s: string)
    requires n < 0x10000
    ensures |s| == 6
  {
    ['\\', 'u', Hex(n / 16 / 16 / 16), Hex(n / 16 / 16 % 16), Hex(n / 16 % 16), Hex(n % 16)]
  }

  lemma {:induction false} Escape4Reads(a: nat, b: nat)
    requires a < 0x10000 && b < 0x10000 && Escape4(a) == Escape4(b)
    ensures a == b
  {
    var s, t := Escape4(a), Escape4(b);
    assert s[2] == t[2] && s[3] == t[3] && s[4] == t[4] && s[5] == t[5];
    var a1, a2, b1, b2 := a / 16, a / 16 / 16, b / 16, b / 16 / 16;
    HexReads(a2 / 16, b2 / 16);
    HexReads(a2 % 16, b2 % 16);
    assert a2 == b2;
    HexReads(a1 % 16, b1 % 16);
    assert a1 == b1;
    HexReads(a % 16, b % 16);
  }

  lemma {:induction false} HexReads(a: nat, b: nat)
    requires a < 16 && b < 16 && Hex(a) == Hex(b)
    ensures a == b
  {
    assert forall i, j :: 0 <= i < j < 16 ==> "0123456789abcdef"[i] != "0123456789abcdef"[j];
  }

  /** `ensure_ascii`: the quote, the backslash and everything outside ' '..'~' is escaped. */
  function EscapeChar(c: char): (s: string)
    ensures s != ""
  {
    if c == '\"' then "\\\""
    else if c == '\\' then "\\\\"
    else if c == '\n' then "\\n"
    else if c == '\r' then "\\r"
    else if c == '\t' then "\\t"
    else if c == '\U{0C}' then "\\f"
    else if c == '\U{08}' then "\\b"
    else if ' ' <= c <= '~' then [c]
    else if c as int < 0x10000 then Escape4(c as int)
    else Surrogates(c as int - 0x10000)
  }

  function Surrogates(n: nat): (s: string)
    requires n < 0x100000
    ensures |s| == 12
  {
    Escape4(0xd800 + n / 0x400) + Escape4(0xdc00 + n % 0x400)
  }

  function EscapeAll(s: string): string {
    if s == "" then "" else EscapeChar(s[0]) + EscapeAll(s[1..])
  }

  function Quote(s: string): string {
    "\"" + EscapeAll(s) + "\""
  }

  predicate Plain(c: char) {
    ' ' <= c <= '~' && c != '\"' && c != '\\'
  }

  predicate Short(c: char) {
    c in "\"\\\n\r\t\U{0C}\U{08}"
  }

  /** The first UTF-16 unit of a character; only surrogate pairs begin in 0xd800..0xdc00. */
  function Unit(c: char): nat {
    if c as int < 0x10000 then c as int else 0xd800 + (c as int - 0x10000) / 0x400
  }

  lemma {:induction false} EscapeShape(c: char)
    ensures Plain(c) ==> EscapeChar(c) == [c]
    ensures Short(c) ==> |EscapeChar(c)| == 2 && EscapeChar(c)[0] == '\\' && EscapeChar(c)[1] != 'u'
    ensures !Plain(c) && !Short(c) ==> |EscapeChar(c)| == if c as int < 0x10000 then 6 else 12
    ensures !Plain(c) && !Short(c) ==> EscapeChar(c)[..6] == Escape4(Unit(c))
    ensures !Plain(c) && !Short(c) && c as int >= 0x10000 ==>
              EscapeChar(c)[6..] == Escape4(0xdc00 + (c as int - 0x10000) % 0x400)
  {
  }

  lemma {:induction false} EscapeBegins(c: char)
    ensures !Plain(c) ==> |EscapeChar(c)| >= 2 && EscapeChar(c)[0] == '\\'
    ensures !Plain(c) && !Short(c) ==> EscapeChar(c)[1] == 'u'
    ensures Plain(c) ==> c != '\\'
  {
  }

  lemma {:induction false} ShortReads(a: char, b: char)
    requires Short(a) && Short(b) && EscapeChar(a)[1] == EscapeChar(b)[1]
    ensures a == b
  {
  }

  /** No character's escape is the beginning of another's. */
  lemma {:induction false} EscapeCharReads(a: char, r: string, b: char, s: string)
    requires EscapeChar(a) + r == EscapeChar(b) + s
    ensures a == b && r == s
  {
    hide EscapeChar, Escape4;
    var x, y, t := EscapeChar(a), EscapeChar(b), EscapeChar(a) + r;
    EscapeShape(a);
    EscapeShape(b);
    EscapeBegins(a);
    EscapeBegins(b);
    assert t[0] == x[0] == y[0];
    if Plain(a) || Plain(b) {
      assert a == b;
    } else {
      assert t[1] == x[1] == y[1];
      if Short(a) || Short(b) {
        ShortReads(a, b);
      } else {
        assert t[..6] == x[..6] && t[..6] == y[..6];
        LongReads(a, r, b, s);
      }
    }
    assert r == t[|x|..] && s == t[|y|..];
  }

  lemma {:induction false} UnitIsSmall(c: char)
    ensures Unit(c) < 0x10000
  {
  }

  lemma {:induction false} LongReads(a: char, r: string, b: char, s: string)
    requires EscapeChar(a) + r == EscapeChar(b) + s
    requires !Plain(a) && !Short(a) && !Plain(b) && !Short(b)
    ensures a == b
  {
    hide EscapeChar, Escape4, Unit;
    var x, y, t := EscapeChar(a), EscapeChar(b), EscapeChar(a) + r;
    UnitIsSmall(a);
    UnitIsSmall(b);
    EscapeShape(a);
    EscapeShape(b);
    assert t[..6] == x[..6] && t[..6] == y[..6];
    Escape4Reads(Unit(a), Unit(b));
    UnitsAgree(a, b);
    if a as int >= 0x10000 {
      assert t[6..12] == x[6..] && t[6..12] == y[6..];
      Escape4Reads(0xdc00 + (a as int - 0x10000) % 0x400, 0xdc00 + (b as int - 0x10000) % 0x400);
      SamePlane(a as int - 0x10000, b as int - 0x10000);
    }
  }

  lemma {:induction false} UnitsAgree(a: char, b: char)
    requires Unit(a) == Unit(b)
    ensures a as int < 0x10000 <==> b as int < 0x10000
    ensures a as int < 0x10000 ==> a == b
    ensures a as int >= 0x10000 ==> (a as int - 0x10000) / 0x400 == (b as int - 0x10000) / 0x400
  {
    assert a as int < 0xd800 || a as int >= 0xe000;
    assert b as int < 0xd800 || b as int >= 0xe000;
  }

  lemma {:induction false} SamePlane(a: nat, b: nat)
    requires a / 0x400 == b / 0x400 && a % 0x400 == b % 0x400
    ensures a == b
  {
  }

  /** A string's characters, its closing quote, and what follows it. */
  function Inside(a: string, r: string): string {
    EscapeAll(a) + ("\"" + r)
  }

  lemma {:induction false} InsideSplits(a: string, r: string)
    ensures a == "" ==> Inside(a, r) == "\"" + r
    ensures a != "" ==> Inside(a, r) == EscapeChar(a[0]) + Inside(a[1..], r) && Inside(a, r)[0] != '\"'
  {
    hide EscapeChar;
    if a != "" {
      EscapeShape(a[0]);
      EscapeBegins(a[0]);
      assert Inside(a, r) == EscapeChar(a[0]) + Inside(a[1..], r);
    }
  }

  lemma {:induction false} QuoteReads(a: string, r: string, b: string, s: string)
    requires Inside(a, r) == Inside(b, s)
    ensures a == b && r == s
  {
    InsideSplits(a, r);
    InsideSplits(b, s);
    if a == "" && b == "" {
      assert r == Inside(a, r)[1..] && s == Inside(b, s)[1..];
    } else if a != "" && b != "" {
      EscapeCharReads(a[0], Inside(a[1..], r), b[0], Inside(b[1..], s));
      QuoteReads(a[1..], r, b[1..], s);
      assert a == [a[0]] + a[1..] && b == [b[0]] + b[1..];
    }
  }

  // ---- objects

  lemma {:induction false} LeastKeyExists(keys: set<string>)
    requires keys != {}
    ensures exists k :: k in keys && forall o :: o in keys ==> LexLeq(k, o)
  {
    var k :| k in keys;
    LexTotal(k, k);
    var rest := keys - {k};
    if rest != {} {
      LeastKeyExists(rest);
      var j :| j in rest && forall o :: o in rest ==> LexLeq(j, o);
      LexTotal(k, j);
      var least := if LexLeq(k, j) then k else j;
      forall o | o in keys ensures LexLeq(least, o) {
        if o in rest && LexLeq(k, j) {
          LexTransitive(k, j, o);
        }
      }
    } else {
      forall o | o in keys ensures o == k {
        assert o in rest || o == k;
      }
    }
  }

  /** `sort_keys=True` */
  function SortedKeys(keys: set<string>): (ks: seq<string>)
    ensures forall k :: k in ks <==> k in keys
  {
    if keys == {} then []
    else
      LeastKeyExists(keys);
      LexIsTotalOrder();
      var k :| k in keys && forall o :: o in keys ==> LexLeq(k, o);
      [k] + SortedKeys(keys - {k})
  }

  // ---- values

  function Word(v: Json): string
    requires v.Null? || v.Bool? || v.Int? || v.Float?
  {
    match v
    case Null => "null"
    case Bool(b) => if b then "true" else "false"
    case Int(n) => IntText(n)
    case Float(repr) => repr
  }

  function Dumps(v: Json): string
    decreases v, 0
  {
    match v
    case Str(s) => Quote(s)
    case Arr(xs) => "[" + Elements(xs) + "]"
    case Obj(m) => "{" + Members(v, SortedKeys(m.Keys)) + "}"
    case _ => Word(v)
  }

  function Elements(xs: seq<Json>): string
    decreases xs, 1
  {
    if xs == [] then "" else if |xs| == 1 then Dumps(xs[0]) else Dumps(xs[0]) + ", " + Elements(xs[1..])
  }

  function Member(v: Json, k: string): string
    requires v.Obj? && k in v.m
    decreases v, 0, 0
  {
    Quote(k) + ": " + Dumps(v.m[k])
  }

  function Members(v: Json, ks: seq<string>): string
    requires v.Obj? && forall k :: k in ks ==> k in v.m
    decreases v, 0, 1, |ks|
  {
    if ks == [] then "" else if |ks| == 1 then Member(v, ks[0]) else Member(v, ks[0]) + ", " + Members(v, ks[1..])
  }

  // ---- reading a value back from its text

  predicate IsWord(v: Json) {
    v.Null? || v.Bool? || v.Int? || v.Float?
  }

  /** What may follow a word: nothing, or a character that no word contains. */
  predicate Stop(r: string) {
    r == "" || !TokenChar(r[0])
  }

  lemma {:induction false} TokenReads(a: string, r: string, b: string, s: string)
    requires a + r == b + s && Stop(r) && Stop(s)
    requires forall i :: 0 <= i < |a| ==> TokenChar(a[i])
    requires forall i :: 0 <= i < |b| ==> TokenChar(b[i])
    ensures a == b && r == s
  {
    var t := a + r;
    assert |a| < |t| ==> r != "" && t[|a|] == r[0];
    assert |b| < |t| ==> s != "" && t[|b|] == s[0];
    assert forall i :: 0 <= i < |a| ==> t[i] == a[i];
    assert forall i :: 0 <= i < |b| ==> t[i] == b[i];
    assert a == t[..|a|] && b == t[..|b|];
    assert r == t[|a|..] && s == t[|b|..];
  }

  lemma {:induction false} DigitsHaveNoMark(s: string)
    requires forall i :: 0 <= i < |s| ==> IsDigit(s[i]) || s[i] == '-'
    ensures !HasMark(s)
  {
    if s != "" {
      DigitsHaveNoMark(s[1..]);
    }
  }

  lemma {:induction false} WordShape(v: Json)
    requires IsWord(v)
    ensures Word(v) != "" && forall i :: 0 <= i < |Word(v)| ==> TokenChar(Word(v)[i])
    ensures v.Int? ==> (IsDigit(Word(v)[0]) || Word(v)[0] == '-') && !HasMark(Word(v))
  {
    if v.Int? {
      NatTextReads(if v.n < 0 then -v.n else v.n);
      DigitsHaveNoMark(Word(v));
    }
  }

  lemma {:induction false} WordReads(v: Json, w: Json)
    requires IsWord(v) && IsWord(w) && Word(v) == Word(w)
    ensures v == w
  {
    WordShape(v);
    WordShape(w);
    if v.Int? && w.Int? {
      IntTextReads(v.n, w.n);
    }
  }

  lemma {:induction false} FirstOfValue(v: Json)
    ensures Dumps(v) != ""
    ensures IsWord(v) <==> TokenChar(Dumps(v)[0])
    ensures v.Str? <==> Dumps(v)[0] == '\"'
    ensures v.Arr? <==> Dumps(v)[0] == '['
    ensures v.Obj? <==> Dumps(v)[0] == '{'
  {
    if IsWord(v) {
      WordShape(v);
    }
  }

  /** The text of a value, followed by what cannot continue a word, tells both apart. */
  lemma {:induction false} DumpsReads(v: Json, r: string, w: Json, s: string)
    requires Dumps(v) + r == Dumps(w) + s && Stop(r) && Stop(s)
    ensures v == w && r == s
    decreases v, 0, 1
  {
    FirstOfValue(v);
    FirstOfValue(w);
    assert (Dumps(v) + r)[0] == Dumps(v)[0] && (Dumps(w) + s)[0] == Dumps(w)[0];
    if IsWord(v) {
      WordShape(v);
      WordShape(w);
      TokenReads(Word(v), r, Word(w), s);
      WordReads(v, w);
    } else if v.Str? {
      QuoteTail(v.s, r);
      QuoteTail(w.s, s);
      QuoteReads(v.s, r, w.s, s);
    } else if v.Arr? {
      Opened("[", Elements(v.xs), "]", r);
      Opened("[", Elements(w.xs), "]", s);
      ElementsRead(v.xs, r, w.xs, s);
    } else {
      ObjectsRead(v, r, w, s);
    }
  }

  lemma {:induction false} ObjectsRead(v: Json, r: string, w: Json, s: string)
    requires v.Obj? && w.Obj? && Dumps(v) + r == Dumps(w) + s
    ensures v == w && r == s
    decreases v, 0, 0, 1
  {
    var ks, ls := SortedKeys(v.m.Keys), SortedKeys(w.m.Keys);
    Opened("{", Members(v, ks), "}", r);
    Opened("{", Members(w, ls), "}", s);
    MembersRead(v, ks, r, w, ls, s);
    assert forall k :: k in v.m.Keys <==> k in ks;
    assert forall k :: k in w.m.Keys <==> k in ls;
    assert v.m.Keys == w.m.Keys;
    assert v.m == w.m;
  }

  lemma {:induction false} Opened(open: string, body: string, close: string, r: string)
    requires |open| == 1
    ensures (open + body + close + r)[1..] == body + (close + r)
  {
  }

  lemma {:induction false} QuoteTail(a: string, r: string)
    ensures (Quote(a) + r)[1..] == Inside(a, r)
  {
  }

  lemma {:induction false} ElementsSplit(xs: seq<Json>, r: string)
    requires xs != []
    ensures |xs| == 1 ==> Elements(xs) + ("]" + r) == Dumps(xs[0]) + ("]" + r)
    ensures |xs| > 1 ==> Elements(xs) + ("]" + r) == Dumps(xs[0]) + (", " + (Elements(xs[1..]) + ("]" + r)))
    ensures (Elements(xs) + ("]" + r))[0] != ']'
  {
    hide Dumps;
    FirstOfValue(xs[0]);
    if |xs| > 1 {
      assert Elements(xs) == Dumps(xs[0]) + ", " + Elements(xs[1..]);
      Regroup(Dumps(xs[0]), ", ", Elements(xs[1..]), "]" + r);
    }
  }

  lemma {:induction false} Regroup(a: string, b: string, c: string, d: string)
    ensures a + b + c + d == a + (b + (c + d))
  {
  }

  lemma {:induction false} ElementsRead(xs: seq<Json>, r: string, ys: seq<Json>, s: string)
    requires Elements(xs) + ("]" + r) == Elements(ys) + ("]" + s)
    ensures xs == ys && r == s
    decreases xs, 1
  {
    assert Elements([]) + ("]" + r) == "]" + r && Elements([]) + ("]" + s) == "]" + s;
    assert r == ("]" + r)[1..] && s == ("]" + s)[1..];
    if xs != [] {
      ElementsSplit(xs, r);
    }
    if ys != [] {
      ElementsSplit(ys, s);
    }
    if xs != [] && ys != [] {
      ElementsSplit(xs, r);
      ElementsSplit(ys, s);
      var xr := if |xs| == 1 then "]" + r else ", " + (Elements(xs[1..]) + ("]" + r));
      var ys' := if |ys| == 1 then "]" + s else ", " + (Elements(ys[1..]) + ("]" + s));
      DumpsReads(xs[0], xr, ys[0], ys');
      assert xr[0] == ys'[0];
      if |xs| > 1 {
        assert xr[2..] == Elements(xs[1..]) + ("]" + r) && ys'[2..] == Elements(ys[1..]) + ("]" + s);
        ElementsRead(xs[1..], r, ys[1..], s);
      } else {
        assert r == xr[1..] && s == ys'[1..];
      }
      assert xs == [xs[0]] + xs[1..] && ys == [ys[0]] + ys[1..];
    }
  }

  lemma {:induction false} MembersSplit(v: Json, ks: seq<string>, r: string)
    requires v.Obj? && ks != [] && forall k :: k in ks ==> k in v.m
    ensures |ks| == 1 ==> Members(v, ks) + ("}" + r) == "\"" + Inside(ks[0], ": " + (Dumps(v.m[ks[0]]) + ("}" + r)))
    ensures |ks| > 1 ==> Members(v, ks) + ("}" + r) ==
                         "\"" + Inside(ks[0], ": " + (Dumps(v.m[ks[0]]) + (", " + (Members(v, ks[1..]) + ("}" + r)))))
  {
    hide Dumps, EscapeAll;
    if |ks| == 1 {
      MemberSplits(v, ks[0], "}" + r);
    } else {
      var rest := Members(v, ks[1..]) + ("}" + r);
      MemberSplits(v, ks[0], ", " + rest);
      assert Members(v, ks) + ("}" + r) == Member(v, ks[0]) + (", " + rest);
    }
  }

  lemma {:induction false} MemberSplits(v: Json, k: string, x: string)
    requires v.Obj? && k in v.m
    ensures Member(v, k) + x == "\"" + Inside(k, ": " + (Dumps(v.m[k]) + x))
  {
    hide Dumps, EscapeAll;
  }

  /** The same keys in the same order, and for each of them the same value. */
  lemma {:induction false} MembersRead(v: Json, ks: seq<string>, r: string, w: Json, ls: seq<string>, s: string)
    requires v.Obj? && forall k :: k in ks ==> k in v.m
    requires w.Obj? && forall k :: k in ls ==> k in w.m
    requires Members(v, ks) + ("}" + r) == Members(w, ls) + ("}" + s)
    ensures ks == ls && r == s
    ensures forall k :: k in ks ==> k in v.m && k in w.m && v.m[k] == w.m[k]
    decreases v, 0, 0, 0, |ks|
  {
    assert "" + ("}" + r) == "}" + r && "" + ("}" + s) == "}" + s;
    assert r == ("}" + r)[1..] && s == ("}" + s)[1..];
    if ks != [] {
      MembersSplit(v, ks, r);
    }
    if ls != [] {
      MembersSplit(w, ls, s);
    }
    if ks != [] && ls != [] {
      MembersSplit(v, ks, r);
      MembersSplit(w, ls, s);
      var x := if |ks| == 1 then "}" + r else ", " + (Members(v, ks[1..]) + ("}" + r));
      var y := if |ls| == 1 then "}" + s else ", " + (Members(w, ls[1..]) + ("}" + s));
      var p, q := ": " + (Dumps(v.m[ks[0]]) + x), ": " + (Dumps(w.m[ls[0]]) + y);
      assert ("\"" + Inside(ks[0], p))[1..] == Inside(ks[0], p) && ("\"" + Inside(ls[0], q))[1..] == Inside(ls[0], q);
      QuoteReads(ks[0], p, ls[0], q);
      assert p[2..] == Dumps(v.m[ks[0]]) + x && q[2..] == Dumps(w.m[ls[0]]) + y;
      DumpsReads(v.m[ks[0]], x, w.m[ls[0]], y);
      assert x[0] == y[0];
      if |ks| > 1 {
        assert x[2..] == Members(v, ks[1..]) + ("}" + r) && y[2..] == Members(w, ls[1..]) + ("}" + s);
        MembersRead(v, ks[1..], r, w, ls[1..], s);
      } else {
        assert r == x[1..] && s == y[1..];
      }
      assert ks == [ks[0]] + ks[1..] && ls == [ls[0]] + ls[1..];
    }
  }

  /** Different values have different texts. */
  lemma {:induction false} DumpsIsInjective(v: Json, w: Json)
    requires Dumps(v) == Dumps(w)
    ensures v == w
  {
    assert Dumps(v) + "" == Dumps(v) && Dumps(w) + "" == Dumps(w);
    DumpsReads(v, "", w, "");
  }
}
