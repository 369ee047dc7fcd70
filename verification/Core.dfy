/** Values shared by every part of the model: results, decimals and JSON with its exact byte encoding. */
module Core {

  datatype Option<+T> = None | Some(value: T)

  datatype Result<+T, +E> = Ok(value: T) | Err(error: E) {
    predicate IsFailure() { Err? }
    function PropagateFailure<U>(): Result<U, E>
      requires Err?
    {
      Err(error)
    }
    function Extract(): T
      requires Ok?
    {
      value
    }
  }

  /** Applies `f` from left to right, stopping at the first failure. */
  function Fold<M, C, E>(f: (M, C) -> Result<M, E>, m: M, cs: seq<C>): Result<M, E> {
    if cs == [] then Ok(m)
    else
      var before :- Fold(f, m, cs[..|cs| - 1]);
      f(before, cs[|cs| - 1])
  }

  lemma {:induction false} FoldAppend<M, C, E>(f: (M, C) -> Result<M, E>, m: M, cs: seq<C>, c: C)
    ensures Fold(f, m, cs + [c]) == (if Fold(f, m, cs).Ok? then f(Fold(f, m, cs).value, c) else Fold(f, m, cs))
  {
    assert (cs + [c])[..|cs|] == cs;
  }

  lemma {:induction false} FoldSplit<M, C, E>(f: (M, C) -> Result<M, E>, m: M, a: seq<C>, b: seq<C>)
    requires Fold(f, m, a).Ok?
    ensures Fold(f, m, a + b) == Fold(f, Fold(f, m, a).value, b)
    decreases |b|
  {
    if b == [] {
      assert a + b == a;
    } else {
      var front, last := b[..|b| - 1], b[|b| - 1];
      FoldSplit(f, m, a, front);
      assert a + b == a + front + [last] && b == front + [last];
      FoldAppend(f, m, a + front, last);
      FoldAppend(f, Fold(f, m, a).value, front, last);
    }
  }

  lemma {:induction false} FoldFrom<M, C, E>(f: (M, C) -> Result<M, E>, m0: M, m: M, done: seq<C>, whole: seq<C>)
    requires done <= whole && Fold(f, m0, done) == Ok(m)
    ensures whole[..|done|] == done
    ensures Fold(f, m0, whole) == Fold(f, m, whole[|done|..])
  {
    assert whole == done + whole[|done|..];
    FoldSplit(f, m0, done, whole[|done|..]);
  }

  lemma {:induction false} FoldFails<M, C, E>(f: (M, C) -> Result<M, E>, m: M, cs: seq<C>, n: nat)
    requires n <= |cs| && Fold(f, m, cs[..n]).Err?
    ensures Fold(f, m, cs).Err?
    decreases |cs|
  {
    if n == |cs| {
      assert cs[..n] == cs;
    } else {
      var front := cs[..|cs| - 1];
      assert front[..n] == cs[..n];
      FoldFails(f, m, front, n);
    }
  }

  lemma {:induction false} FoldNext<M, C, E>(f: (M, C) -> Result<M, E>, m: M, cs: seq<C>, n: nat)
    requires n < |cs| && Fold(f, m, cs[..n]).Ok?
    ensures Fold(f, m, cs[..n + 1]) == f(Fold(f, m, cs[..n]).value, cs[n])
  {
    assert cs[..n + 1] == cs[..n] + [cs[n]];
    FoldAppend(f, m, cs[..n], cs[n]);
  }

  function Max(a: int, b: int): (r: int)
    ensures r >= a && r >= b && (r == a || r == b)
  {
    if a >= b then a else b
  }

  function Min(a: int, b: int): (r: int)
    ensures r <= a && r <= b && (r == a || r == b)
  {
    if a <= b then a else b
  }

  function Pow10(n: nat): (r: nat)
    ensures r >= 1
  {
    if n == 0 then 1 else 10 * Pow10(n - 1)
  }

  /** `n * 10^k`, by appending zeros. */
  function Shift(n: int, k: nat): int {
    if k == 0 then n else 10 * Shift(n, k - 1)
  }

  lemma {:induction false} ShiftIsProduct(n: int, k: nat)
    ensures Shift(n, k) == n * Pow10(k)
  {
    if k != 0 {
      ShiftIsProduct(n, k - 1);
      assert 10 * (n * Pow10(k - 1)) == n * (10 * Pow10(k - 1));
    }
  }

  /** `x * 10^z`. */
  function Scale(x: real, z: int): real
    decreases if z < 0 then -z else z
  {
    if z == 0 then x else if z > 0 then 10.0 * Scale(x, z - 1) else Scale(x, z + 1) / 10.0
  }

  /** The decimal `coef * 10^-scale`. Two decimals of equal value can differ in scale, as written on the wire. */
  datatype Decimal = Decimal(coef: int, scale: int)

  /** Induction along the prefixes of a sequence. */
  lemma {:induction false} Along<T>(holds: seq<T> -> bool, s: seq<T>)
    requires holds([]) && forall front, x | holds(front) :: holds(front + [x])
    ensures holds(s)
  {
    if s != [] {
      var n := |s| - 1;
      Along(holds, s[..n]);
      assert holds(s[..n]) && s[..n] + [s[n]] == s;
    }
  }

  lemma {:induction false} Subsets<T>(a: set<T>, b: set<T>)
    requires a <= b
    ensures |a| <= |b|
    ensures |a| == |b| ==> a == b
    decreases |a|
  {
    if a != {} {
      var x :| x in a;
      Subsets(a - {x}, b - {x});
      assert a == (a - {x}) + {x} && b == (b - {x}) + {x};
    }
  }

  /** JSON values. Object members are kept in the order in which the canonical encoding writes them. */
  datatype Json =
    | Null
    | Bool(b: bool)
    | Num(number: Decimal)
    | Str(text: string)
    | Arr(items: seq<Json>)
    | Obj(fields: seq<(string, Json)>)

  function Digits(n: nat): string {
    if n < 10 then ["0123456789"[n]] else Digits(n / 10) + ["0123456789"[n % 10]]
  }

  function Zeros(n: nat): string {
    if n == 0 then "" else "0" + Zeros(n - 1)
  }

  /** Plain (never scientific) decimal text: every digit of the scale is written out. */
  function PlainText(d: Decimal): string {
    var sign := if d.coef < 0 then "-" else "";
    var digits := Digits(if d.coef < 0 then -d.coef else d.coef);
    if d.scale <= 0 then sign + digits + Zeros(-d.scale)
    else
      var padded := if |digits| <= d.scale then Zeros(d.scale + 1 - |digits|) + digits else digits;
      PadLength(d, digits);
      sign + padded[..|padded| - d.scale] + "." + padded[|padded| - d.scale..]
  }

  lemma {:induction false} ZerosLength(n: nat)
    ensures |Zeros(n)| == n
  {
    if n != 0 { ZerosLength(n - 1); }
  }

  lemma {:induction false} PadLength(d: Decimal, digits: string)
    requires d.scale > 0
    ensures |digits| <= d.scale ==> |Zeros(d.scale + 1 - |digits|)| == d.scale + 1 - |digits|
  {
    if |digits| <= d.scale { ZerosLength(d.scale + 1 - |digits|); }
  }

  /** Text is a sequence of UTF-8 bytes; only quotes, backslashes and control bytes are escaped. */
  function EscapeChar(c: char): string {
    if c == '\"' then "\\\""
    else if c == '\\' then "\\\\"
    else if c == '\n' then "\\n"
    else if c == '\r' then "\\r"
    else if c == '\t' then "\\t"
    else if c as int == 8 then "\\b"
    else if c as int == 12 then "\\f"
    else if (c as int) < 32 then "\\u00" + [HexDigit(c as int / 16), HexDigit(c as int % 16)]
    else [c]
  }

  function HexDigit(n: nat): char
    requires n < 16
  {
    "0123456789abcdef"[n]
  }

  function Escape(s: string): string {
    if s == "" then "" else Escape(s[..|s| - 1]) + EscapeChar(s[|s| - 1])
  }

  function Wrap(open: char, body: string, close: char): (r: string)
    ensures |r| == |body| + 2
  {
    [open] + body + [close]
  }

  function Between(left: string, separator: char, right: string): (r: string)
    ensures |r| == |left| + 1 + |right|
  {
    left + [separator] + right
  }

  function Quote(s: string): string {
    Wrap('\"', Escape(s), '\"')
  }

  /** The canonical encoding: no white space, members in order, one comma between neighbours. */
  function Encode(j: Json): string
    decreases j, 0
  {
    match j
    case Null => "null"
    case Bool(b) => if b then "true" else "false"
    case Num(d) => PlainText(d)
    case Str(s) => Quote(s)
    case Arr(items) => Wrap('[', Join(items), ']')
    case Obj(fields) => Wrap('{', JoinFields(fields), '}')
  }

  function Join(items: seq<Json>): string
    decreases items, 1
  {
    if |items| == 0 then ""
    else if |items| == 1 then Encode(items[0])
    else Between(Join(items[..|items| - 1]), ',', Encode(items[|items| - 1]))
  }

  function EncodeField(f: (string, Json)): string
    decreases f, 0
  {
    Between(Quote(f.0), ':', Encode(f.1))
  }

  function JoinFields(fields: seq<(string, Json)>): string
    decreases fields, 1
  {
    if |fields| == 0 then ""
    else if |fields| == 1 then EncodeField(fields[0])
    else Between(JoinFields(fields[..|fields| - 1]), ',', EncodeField(fields[|fields| - 1]))
  }
}
