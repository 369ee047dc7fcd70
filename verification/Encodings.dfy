/** The canonical encoding tells every two values apart: it can be read back from the left. */
module Encodings {
  import opened Core

  // ----- text -----

  /** Text written character by character. */
  ghost function Written(code: char -> string, s: string): string {
    if s == "" then "" else Written(code, s[..|s| - 1]) + code(s[|s| - 1])
  }

  lemma {:induction false} WrittenAppend(code: char -> string, s: string, c: char)
    ensures Written(code, s + [c]) == Written(code, s) + code(c)
  {
    assert (s + [c])[..|s|] == s;
  }

  lemma {:induction false} WrittenHead(code: char -> string, c: char, s: string)
    ensures Written(code, [c] + s) == code(c) + Written(code, s)
  {
    if s == "" {
      assert [c] + s == "" + [c];
      WrittenAppend(code, "", c);
      assert Written(code, s) == "";
    } else {
      var front, last := s[..|s| - 1], s[|s| - 1];
      WrittenHead(code, c, front);
      assert [c] + s == ([c] + front) + [last] && s == front + [last];
      WrittenAppend(code, [c] + front, last);
      WrittenAppend(code, front, last);
    }
  }

  lemma {:induction false} EscapeWrites(s: string)
    ensures Escape(s) == Written(EscapeChar, s)
  {
    if s != "" { EscapeWrites(s[..|s| - 1]); }
  }

  predicate Collide(a: string, x: string, b: string, y: string) { a + x == b + y }

  /** Each character can be read off the front, and none starts with a quote. */
  ghost predicate Readable(code: char -> string) {
    && (forall c :: code(c) != "" && code(c)[0] != '\"')
    && (forall c, d, x, y :: Collide(code(c), x, code(d), y) ==> c == d && x == y)
  }

  /** One escaped character can be read off the front. */
  lemma {:induction false} EscapedCharRead(c: char, d: char, x: string, y: string)
    requires EscapeChar(c) + x == EscapeChar(d) + y
    ensures c == d && x == y
  {
    var u, v := EscapeChar(c) + x, EscapeChar(d) + y;
    assert u[0] == EscapeChar(c)[0] && v[0] == EscapeChar(d)[0];
    if |EscapeChar(c)| > 1 && |EscapeChar(d)| > 1 {
      assert u[1] == EscapeChar(c)[1] && v[1] == EscapeChar(d)[1];
      if |EscapeChar(c)| > 2 && |EscapeChar(d)| > 2 {
        assert u[4] == EscapeChar(c)[4] && v[4] == EscapeChar(d)[4];
        assert u[5] == EscapeChar(c)[5] && v[5] == EscapeChar(d)[5];
        HexDigits(c as int / 16, d as int / 16);
        HexDigits(c as int % 16, d as int % 16);
      }
    }
    assert u[|EscapeChar(c)|..] == x && v[|EscapeChar(d)|..] == y;
  }

  lemma {:induction false} HexDigits(m: nat, n: nat)
    requires m < 16 && n < 16 && HexDigit(m) == HexDigit(n)
    ensures m == n
  {
  }

  lemma {:induction false} EscapedHead(c: char)
    ensures EscapeChar(c) != "" && EscapeChar(c)[0] != '\"'
  {
  }

  lemma {:induction false} EscapeReadable()
    ensures Readable(EscapeChar)
  {
    forall c ensures EscapeChar(c) != "" && EscapeChar(c)[0] != '\"' { EscapedHead(c); }
    forall c, d, x, y | Collide(EscapeChar(c), x, EscapeChar(d), y) ensures c == d && x == y {
      EscapedCharRead(c, d, x, y);
    }
  }

  /** Only the end of a text shows a quote. */
  lemma {:induction false} FirstChar(code: char -> string, s: string, x: string)
    requires Readable(code)
    ensures (Written(code, s) + ['\"'] + x)[0] == '\"' <==> s == ""
  {
    if s != "" {
      WrittenHead(code, s[0], s[1..]);
      assert s == [s[0]] + s[1..];
    }
  }

  lemma {:induction false} ReadOne(code: char -> string, c: char, d: char, x: string, y: string)
    requires Readable(code) && code(c) + x == code(d) + y
    ensures c == d && x == y
  {
    assert Collide(code(c), x, code(d), y);
  }

  lemma {:induction false} FirstWritten(code: char -> string, s: string, x: string)
    requires s != ""
    ensures Written(code, s) + ['\"'] + x == code(s[0]) + (Written(code, s[1..]) + ['\"'] + x)
  {
    WrittenHead(code, s[0], s[1..]);
    assert s == [s[0]] + s[1..];
  }

  lemma {:induction false} Emptied(code: char -> string, x: string)
    ensures (Written(code, "") + ['\"'] + x)[1..] == x
  {
  }

  /** Text ends at the quote that follows it. */
  lemma {:induction false} TextRead(code: char -> string, s: string, t: string, x: string, y: string)
    requires Readable(code) && Written(code, s) + ['\"'] + x == Written(code, t) + ['\"'] + y
    ensures s == t && x == y
    decreases |s|
  {
    FirstChar(code, s, x);
    FirstChar(code, t, y);
    if s == "" {
      Emptied(code, x);
      Emptied(code, y);
    } else {
      FirstWritten(code, s, x);
      FirstWritten(code, t, y);
      ReadOne(code, s[0], t[0], Written(code, s[1..]) + ['\"'] + x, Written(code, t[1..]) + ['\"'] + y);
      TextRead(code, s[1..], t[1..], x, y);
      assert s == [s[0]] + s[1..] && t == [t[0]] + t[1..];
    }
  }

  lemma {:induction false} QuoteRead(s: string, t: string, x: string, y: string)
    requires Quote(s) + x == Quote(t) + y
    ensures s == t && x == y
  {
    EscapeWrites(s);
    EscapeWrites(t);
    EscapeReadable();
    Unwrapped(Written(EscapeChar, s), Written(EscapeChar, t), x, y);
    TextRead(EscapeChar, s, t, x, y);
  }

  lemma {:induction false} Unwrapped(a: string, b: string, x: string, y: string)
    requires Wrap('\"', a, '\"') + x == Wrap('\"', b, '\"') + y
    ensures a + ['\"'] + x == b + ['\"'] + y
  {
    assert (Wrap('\"', a, '\"') + x)[1..] == a + ['\"'] + x;
    assert (Wrap('\"', b, '\"') + y)[1..] == b + ['\"'] + y;
  }

  // ----- numbers -----

  predicate Digit(c: char) { '0' <= c <= '9' }
  predicate All(s: string, of: char -> bool) { forall i | 0 <= i < |s| :: of(s[i]) }
  predicate Stops(x: string, of: char -> bool) { x == "" || !of(x[0]) }

  /** The longest run of characters of one kind can be read off the front. */
  lemma {:induction false} Munch(a: string, b: string, x: string, y: string, of: char -> bool)
    requires All(a, of) && All(b, of) && Stops(x, of) && Stops(y, of) && a + x == b + y
    ensures a == b && x == y
  {
    if |a| < |b| { Beyond(a, b, x, y); }
    if |b| < |a| { Beyond(b, a, y, x); }
    assert (a + x)[..|a|] == a && (b + y)[..|b|] == b && (a + x)[|a|..] == x && (b + y)[|b|..] == y;
  }

  lemma {:induction false} Beyond(a: string, b: string, x: string, y: string)
    requires |a| < |b| && a + x == b + y
    ensures x != "" && x[0] == b[|a|]
  {
    assert |a + x| == |b + y|;
    assert (a + x)[|a|] == (b + y)[|a|];
  }

  /** The number that digits stand for. */
  ghost function Worth(s: string): int {
    if s == "" then 0 else 10 * Worth(s[..|s| - 1]) + (s[|s| - 1] as int - '0' as int)
  }

  lemma {:induction false} DigitsWorth(n: nat)
    ensures Digits(n) != "" && All(Digits(n), Digit) && Worth(Digits(n)) == n
  {
    var last := ["0123456789"[n % 10]];
    LastDigit(n % 10);
    if n < 10 {
      assert Digits(n) == last && Worth(last[..0]) == 0;
    } else {
      DigitsWorth(n / 10);
      assert Digits(n)[..|Digits(n)| - 1] == Digits(n / 10);
    }
  }

  lemma {:induction false} LastDigit(k: nat)
    requires k < 10
    ensures Digit("0123456789"[k]) && "0123456789"[k] as int - '0' as int == k
  {
  }

  lemma {:induction false} ZerosWorth(k: nat, s: string)
    requires All(s, Digit)
    ensures All(Zeros(k) + s, Digit) && Worth(Zeros(k) + s) == Worth(s) && |Zeros(k)| == k
    decreases k + |s|
  {
    if s != "" {
      ZerosWorth(k, s[..|s| - 1]);
      assert (Zeros(k) + s)[..k + |s| - 1] == Zeros(k) + s[..|s| - 1];
    } else if k != 0 {
      ZerosWorth(k - 1, s);
      assert Zeros(k - 1) + s == Zeros(k - 1) && Zeros(k) + s == Zeros(k);
      ZerosEnd(k);
    }
  }

  lemma {:induction false} ZerosEnd(k: nat)
    requires k > 0
    ensures Zeros(k) == Zeros(k - 1) + "0"
  {
    if k > 1 { ZerosEnd(k - 1); }
  }

  /** The digits of a number, with enough zeros in front for its point. */
  ghost function Padded(d: Decimal): string {
    var digits := Digits(Abs(d.coef));
    if 0 < d.scale && |digits| <= d.scale then Zeros(d.scale + 1 - |digits|) + digits else digits
  }

  function Abs(n: int): nat { if n < 0 then -n else n }

  lemma {:induction false} PaddedWorth(d: Decimal)
    requires d.scale >= 0
    ensures All(Padded(d), Digit) && |Padded(d)| > d.scale && Worth(Padded(d)) == Abs(d.coef)
  {
    var digits := Digits(Abs(d.coef));
    DigitsWorth(Abs(d.coef));
    if 0 < d.scale && |digits| <= d.scale { ZerosWorth(d.scale + 1 - |digits|, digits); }
  }

  ghost function Pointed(s: string, scale: nat): string
    requires |s| > scale
  {
    if scale == 0 then s else s[..|s| - scale] + "." + s[|s| - scale..]
  }

  function Sign(n: int): string { if n < 0 then "-" else "" }

  lemma {:induction false} Regroup(a: string, b: string, c: string, e: string)
    ensures a + b + c + e == a + (b + c + e) && a + b + "" == a + b
  {
  }

  lemma {:induction false} WholeShape(d: Decimal)
    requires d.scale == 0
    ensures PlainText(d) == Sign(d.coef) + Padded(d)
  {
    var digits := Digits(Abs(d.coef));
    assert PlainText(d) == Sign(d.coef) + digits + Zeros(0) && Zeros(0) == "";
    Regroup(Sign(d.coef), digits, "", "");
  }

  lemma {:induction false} PointShape(d: Decimal)
    requires d.scale > 0 && |Padded(d)| > d.scale
    ensures PlainText(d) == Sign(d.coef) + Pointed(Padded(d), d.scale)
  {
    var p := Padded(d);
    Regroup(Sign(d.coef), p[..|p| - d.scale], ".", p[|p| - d.scale..]);
  }

  lemma {:induction false} PlainShape(d: Decimal)
    requires d.scale >= 0 && |Padded(d)| > d.scale
    ensures PlainText(d) == Sign(d.coef) + Pointed(Padded(d), d.scale)
  {
    if d.scale == 0 { WholeShape(d); } else { PointShape(d); }
  }

  /** The digits and the point can be told from what is written. */
  lemma {:induction false} PointedRead(s: string, k: nat, t: string, l: nat)
    requires |s| > k && |t| > l && All(s, Digit) && All(t, Digit) && Pointed(s, k) == Pointed(t, l)
    ensures s == t && k == l
  {
    var x, y := Pointed(s, k)[|s| - k..], Pointed(t, l)[|t| - l..];
    assert Pointed(s, k) == s[..|s| - k] + x && Pointed(t, l) == t[..|t| - l] + y;
    Munch(s[..|s| - k], t[..|t| - l], x, y, Digit);
    assert |x| == (if k == 0 then 0 else k + 1) && |y| == (if l == 0 then 0 else l + 1);
    assert k > 0 ==> x[1..] == s[|s| - k..];
    assert l > 0 ==> y[1..] == t[|t| - l..];
    assert s == s[..|s| - k] + s[|s| - k..] && t == t[..|t| - l] + t[|t| - l..];
  }

  /** Plain text tells numbers of non-negative scale apart. */
  lemma {:induction false} PlainTextRead(a: Decimal, b: Decimal)
    requires a.scale >= 0 && b.scale >= 0 && PlainText(a) == PlainText(b)
    ensures a == b
  {
    PaddedWorth(a);
    PaddedWorth(b);
    PlainShape(a);
    PlainShape(b);
    var x, y := Pointed(Padded(a), a.scale), Pointed(Padded(b), b.scale);
    assert Digit(x[0]) && Digit(y[0]);
    assert (Sign(a.coef) + x)[0] == '-' <==> a.coef < 0;
    assert (Sign(b.coef) + y)[0] == '-' <==> b.coef < 0;
    assert (Sign(a.coef) + x)[|Sign(a.coef)|..] == x && (Sign(b.coef) + y)[|Sign(b.coef)|..] == y;
    PointedRead(Padded(a), a.scale, Padded(b), b.scale);
  }

  predicate NumberChar(c: char) { Digit(c) || c == '-' || c == '.' }

  lemma {:induction false} AllConcat(a: string, b: string, of: char -> bool)
    requires All(a, of) && All(b, of)
    ensures All(a + b, of)
  {
  }

  lemma {:induction false} PointedChars(s: string, k: nat)
    requires |s| > k && All(s, Digit)
    ensures Pointed(s, k) != "" && All(Pointed(s, k), NumberChar)
  {
  }

  lemma {:induction false} PlainTextChars(d: Decimal)
    requires d.scale >= 0
    ensures PlainText(d) != "" && All(PlainText(d), NumberChar)
  {
    PaddedWorth(d);
    PlainShape(d);
    PointedChars(Padded(d), d.scale);
    AllConcat(Sign(d.coef), Pointed(Padded(d), d.scale), NumberChar);
  }

  // ----- values -----

  /** Every number in the value has a non-negative scale, as all numbers on the wire do. */
  ghost predicate Regular(j: Json) {
    match j
    case Num(d) => d.scale >= 0
    case Arr(items) => forall i | 0 <= i < |items| :: Regular(items[i])
    case Obj(fields) => forall i | 0 <= i < |fields| :: Regular(fields[i].1)
    case _ => true
  }

  /** What can follow a value: nothing, a comma, or the end of a list or an object. */
  predicate Ends(x: string) { x == "" || x[0] in {',', ']', '}'} }

  predicate Opens(j: Json, c: char) {
    match j
    case Null => c == 'n'
    case Bool(b) => c == (if b then 't' else 'f')
    case Num(_) => NumberChar(c)
    case Str(_) => c == '\"'
    case Arr(_) => c == '['
    case Obj(_) => c == '{'
  }

  /** The first character tells the kind of a value. */
  lemma {:induction false} EncodeOpens(j: Json)
    requires Regular(j)
    ensures Encode(j) != "" && Opens(j, Encode(j)[0])
  {
    match j
    case Num(d) => PlainTextChars(d);
    case _ =>
  }

  lemma {:induction false} JoinHead(items: seq<Json>)
    requires items != []
    ensures Join(items) == Encode(items[0]) + (if |items| == 1 then "" else [','] + Join(items[1..]))
  {
    var n := |items| - 1;
    if n > 0 {
      JoinHead(items[..n]);
      if n > 1 {
        assert items[..n][1..] == items[1..][..n - 1] && items[1..][n - 1] == items[n];
      } else {
        assert items[1..] == [items[1]];
      }
    }
  }

  lemma {:induction false} JoinFieldsHead(fields: seq<(string, Json)>)
    requires fields != []
    ensures JoinFields(fields)
            == EncodeField(fields[0]) + (if |fields| == 1 then "" else [','] + JoinFields(fields[1..]))
  {
    var n := |fields| - 1;
    if n > 0 {
      JoinFieldsHead(fields[..n]);
      if n > 1 {
        assert fields[..n][1..] == fields[1..][..n - 1] && fields[1..][n - 1] == fields[n];
      } else {
        assert fields[1..] == [fields[1]];
      }
    }
  }

  /** What follows the first of several parts. */
  ghost function After(more: bool, rest: string, close: char, x: string): string {
    (if more then [','] + rest else "") + [close] + x
  }

  lemma {:induction false} AfterRead(m: bool, n: bool, s: string, t: string, close: char, x: string, y: string)
    requires close != ',' && After(m, s, close, x) == After(n, t, close, y)
    ensures m == n && (if m then s + [close] + x == t + [close] + y else x == y)
  {
    var u, v := After(m, s, close, x), After(n, t, close, y);
    assert u[0] == (if m then ',' else close) && v[0] == (if n then ',' else close);
    assert u[1..] == (if m then s + [close] + x else x) && v[1..] == (if n then t + [close] + y else y);
  }

  lemma {:induction false} FirstItem(items: seq<Json>, close: char, x: string)
    requires items != []
    ensures Join(items) + [close] + x == Encode(items[0]) + After(|items| > 1, Join(items[1..]), close, x)
  {
    JoinHead(items);
  }

  lemma {:induction false} FirstField(fields: seq<(string, Json)>, close: char, x: string)
    requires fields != []
    ensures JoinFields(fields) + [close] + x
            == EncodeField(fields[0]) + After(|fields| > 1, JoinFields(fields[1..]), close, x)
  {
    JoinFieldsHead(fields);
  }

  lemma {:induction false} AfterEnds(more: bool, rest: string, close: char, x: string)
    requires close in {']', '}'}
    ensures Ends(After(more, rest, close, x))
  {
  }

  lemma {:induction false} Ended(close: char, x: string, y: string)
    requires "" + [close] + x == "" + [close] + y
    ensures x == y
  {
    assert ("" + [close] + x)[1..] == x && ("" + [close] + y)[1..] == y;
  }

  /** Whether a list is empty shows in its first character. */
  lemma {:induction false} ItemsOpen(items: seq<Json>, x: string)
    requires forall i | 0 <= i < |items| :: Regular(items[i])
    ensures (Join(items) + [']'] + x)[0] == ']' <==> items == []
  {
    if items != [] {
      FirstItem(items, ']', x);
      EncodeOpens(items[0]);
    }
  }

  lemma {:induction false} FieldsOpen(fields: seq<(string, Json)>, x: string)
    ensures (JoinFields(fields) + ['}'] + x)[0] == '}' <==> fields == []
  {
    if fields != [] { FirstField(fields, '}', x); }
  }

  lemma {:induction false} Closing(a: string, b: string, open: char, close: char, x: string, y: string)
    requires Wrap(open, a, close) + x == Wrap(open, b, close) + y
    ensures a + [close] + x == b + [close] + y
  {
    assert (Wrap(open, a, close) + x)[1..] == a + [close] + x;
    assert (Wrap(open, b, close) + y)[1..] == b + [close] + y;
  }

  lemma {:induction false} NumberRead(a: Decimal, b: Decimal, x: string, y: string)
    requires a.scale >= 0 && b.scale >= 0 && Ends(x) && Ends(y) && PlainText(a) + x == PlainText(b) + y
    ensures a == b && x == y
  {
    PlainTextChars(a);
    PlainTextChars(b);
    Munch(PlainText(a), PlainText(b), x, y, NumberChar);
    PlainTextRead(a, b);
  }

  lemma {:induction false} BoolRead(a: bool, b: bool, x: string, y: string)
    requires Encode(Bool(a)) + x == Encode(Bool(b)) + y
    ensures a == b && x == y
  {
    assert (Encode(Bool(a)) + x)[0] == (if a then 't' else 'f') && (Encode(Bool(b)) + y)[0] == (if b then 't' else 'f');
    assert (Encode(Bool(a)) + x)[|Encode(Bool(a))|..] == x && (Encode(Bool(b)) + y)[|Encode(Bool(b))|..] == y;
  }

  lemma {:induction false} SameKind(a: Json, b: Json, x: string, y: string)
    requires Regular(a) && Regular(b) && Encode(a) + x == Encode(b) + y
    ensures exists c :: Opens(a, c) && Opens(b, c)
  {
    EncodeOpens(a);
    EncodeOpens(b);
    assert (Encode(a) + x)[0] == Encode(a)[0] && (Encode(b) + y)[0] == Encode(b)[0];
  }

  /** A value can be read off the front of what is written. */
  lemma {:induction false} ValueRead(a: Json, b: Json, x: string, y: string)
    requires Regular(a) && Regular(b) && Ends(x) && Ends(y) && Encode(a) + x == Encode(b) + y
    ensures a == b && x == y
    decreases a, 0
  {
    SameKind(a, b, x, y);
    match a
    case Null => assert (Encode(a) + x)[4..] == x && (Encode(b) + y)[4..] == y;
    case Bool(v) => BoolRead(v, b.b, x, y);
    case Num(d) => NumberRead(d, b.number, x, y);
    case Str(s) => QuoteRead(s, b.text, x, y);
    case Arr(items) =>
      Closing(Join(items), Join(b.items), '[', ']', x, y);
      ItemsRead(items, b.items, x, y);
    case Obj(fields) =>
      Closing(JoinFields(fields), JoinFields(b.fields), '{', '}', x, y);
      FieldsRead(fields, b.fields, x, y);
  }

  lemma {:induction false} ItemsRead(es: seq<Json>, bs: seq<Json>, x: string, y: string)
    requires forall i | 0 <= i < |es| :: Regular(es[i])
    requires forall i | 0 <= i < |bs| :: Regular(bs[i])
    requires Join(es) + [']'] + x == Join(bs) + [']'] + y
    ensures es == bs && x == y
    decreases es, 1
  {
    ItemsOpen(es, x);
    ItemsOpen(bs, y);
    if es == [] {
      Ended(']', x, y);
    } else {
      var u := After(|es| > 1, Join(es[1..]), ']', x);
      var v := After(|bs| > 1, Join(bs[1..]), ']', y);
      FirstItem(es, ']', x);
      FirstItem(bs, ']', y);
      AfterEnds(|es| > 1, Join(es[1..]), ']', x);
      AfterEnds(|bs| > 1, Join(bs[1..]), ']', y);
      ValueRead(es[0], bs[0], u, v);
      AfterRead(|es| > 1, |bs| > 1, Join(es[1..]), Join(bs[1..]), ']', x, y);
      if |es| > 1 { ItemsRead(es[1..], bs[1..], x, y); }
      assert es == [es[0]] + es[1..] && bs == [bs[0]] + bs[1..];
    }
  }

  lemma {:induction false} FieldsRead(fs: seq<(string, Json)>, gs: seq<(string, Json)>, x: string, y: string)
    requires forall i | 0 <= i < |fs| :: Regular(fs[i].1)
    requires forall i | 0 <= i < |gs| :: Regular(gs[i].1)
    requires JoinFields(fs) + ['}'] + x == JoinFields(gs) + ['}'] + y
    ensures fs == gs && x == y
    decreases fs, 1
  {
    FieldsOpen(fs, x);
    FieldsOpen(gs, y);
    if fs == [] {
      Ended('}', x, y);
    } else {
      var u := After(|fs| > 1, JoinFields(fs[1..]), '}', x);
      var v := After(|gs| > 1, JoinFields(gs[1..]), '}', y);
      FirstField(fs, '}', x);
      FirstField(gs, '}', y);
      AfterEnds(|fs| > 1, JoinFields(fs[1..]), '}', x);
      AfterEnds(|gs| > 1, JoinFields(gs[1..]), '}', y);
      FieldRead(fs[0], gs[0], u, v);
      AfterRead(|fs| > 1, |gs| > 1, JoinFields(fs[1..]), JoinFields(gs[1..]), '}', x, y);
      if |fs| > 1 { FieldsRead(fs[1..], gs[1..], x, y); }
      assert fs == [fs[0]] + fs[1..] && gs == [gs[0]] + gs[1..];
    }
  }

  lemma {:induction false} Pair(name: string, value: string, x: string)
    ensures Between(name, ':', value) + x == name + ([':'] + (value + x))
  {
  }

  lemma {:induction false} Behind(a: string, b: string)
    requires [':'] + a == [':'] + b
    ensures a == b
  {
    assert ([':'] + a)[1..] == a && ([':'] + b)[1..] == b;
  }

  lemma {:induction false} FieldRead(f: (string, Json), g: (string, Json), x: string, y: string)
    requires Regular(f.1) && Regular(g.1) && Ends(x) && Ends(y) && EncodeField(f) + x == EncodeField(g) + y
    ensures f == g && x == y
    decreases f, 0
  {
    Pair(Quote(f.0), Encode(f.1), x);
    Pair(Quote(g.0), Encode(g.1), y);
    QuoteRead(f.0, g.0, [':'] + (Encode(f.1) + x), [':'] + (Encode(g.1) + y));
    Behind(Encode(f.1) + x, Encode(g.1) + y);
    ValueRead(f.1, g.1, x, y);
  }

  /** Two values with the same bytes are the same value. */
  lemma {:induction false} EncodeInjective(a: Json, b: Json)
    requires Regular(a) && Regular(b) && Encode(a) == Encode(b)
    ensures a == b
  {
    assert Encode(a) + "" == Encode(a) && Encode(b) + "" == Encode(b);
    ValueRead(a, b, "", "");
  }
}
