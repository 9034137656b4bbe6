/**
 naturalLess of cmd/running-man/tuitrace.go: attribute keys in an order that compares runs
 of digits as numbers. A character stands for a byte.
 */
module NaturalOrder {
  import opened GoStrings

  predicate IsDigit(c: char) {
    '0' <= c <= '9'
  }

  predicate AllDigits(s: string) {
    forall i :: 0 <= i < |s| ==> IsDigit(s[i])
  }

  function DigitRunOf(s: string): (n: nat)
    ensures n <= |s| && AllDigits(s[..n]) && (n < |s| ==> !IsDigit(s[n]))
  {
    if s == [] || !IsDigit(s[0]) then 0
    else
      assert s[..1 + DigitRunOf(s[1..])] == [s[0]] + s[1..][..DigitRunOf(s[1..])];
      1 + DigitRunOf(s[1..])
  }

  method DigitRun(s: string) returns (n: nat)
    ensures n == DigitRunOf(s)
  {
    n := 0;
    while n < |s| && IsDigit(s[n])
      invariant n <= |s| && DigitRunOf(s) == n + DigitRunOf(s[n..])
    {
      assert s[n..][1..] == s[n + 1..];
      n := n + 1;
    }
  }

  /** strings.TrimLeft(s, "0") */
  function TrimZeros(s: string): string {
    if s != [] && s[0] == '0' then TrimZeros(s[1..]) else s
  }

  /** The number a run of digits is, however long. */
  function Value(s: string): nat
    requires AllDigits(s)
  {
    if s == [] then 0 else 10 * Value(s[..|s| - 1]) + (s[|s| - 1] - '0') as nat
  }

  // ---------------------------------------------------------------- runs of digits are numbers

  lemma {:induction false} LeadingZero(s: string)
    requires AllDigits(s) && s != [] && s[0] == '0'
    ensures Value(s) == Value(s[1..])
  {
    if |s| > 1 {
      assert s[..|s| - 1][1..] == s[1..][..|s| - 2];
      LeadingZero(s[..|s| - 1]);
    } else {
      assert s[..0] == [];
    }
  }

  lemma {:induction false} TrimKeepsValue(s: string)
    requires AllDigits(s)
    ensures AllDigits(TrimZeros(s)) && Value(TrimZeros(s)) == Value(s)
    ensures TrimZeros(s) == [] || TrimZeros(s)[0] != '0'
  {
    if s != [] && s[0] == '0' {
      LeadingZero(s);
      TrimKeepsValue(s[1..]);
    }
  }

  lemma {:induction false} LongerIsLarger(x: string, y: string)
    requires AllDigits(x) && AllDigits(y) && |x| < |y| && y[0] != '0'
    ensures Value(x) < Value(y)
    decreases |y|
  {
    if |y| > 1 {
      if x == [] {
        LongerIsLarger([], y[..|y| - 1]);
      } else {
        LongerIsLarger(x[..|x| - 1], y[..|y| - 1]);
      }
    }
  }

  lemma {:induction false} LessByLast(x: string, y: string)
    requires |x| == |y| > 0
    ensures var n := |x| - 1; Less(x, y) <==> Less(x[..n], y[..n]) || (x[..n] == y[..n] && x[n] < y[n])
  {
    var n := |x| - 1;
    if n > 0 {
      LessByLast(x[1..], y[1..]);
      assert x[1..][..n - 1] == x[..n][1..] && y[1..][..n - 1] == y[..n][1..];
      assert x[..n] == [x[0]] + x[..n][1..] && y[..n] == [y[0]] + y[..n][1..];
    }
  }

  lemma {:induction false} SameLengthByValue(x: string, y: string)
    requires AllDigits(x) && AllDigits(y) && |x| == |y|
    ensures (Less(x, y) <==> Value(x) < Value(y)) && (x == y <==> Value(x) == Value(y))
  {
    if |x| > 0 {
      var n := |x| - 1;
      LessByLast(x, y);
      SameLengthByValue(x[..n], y[..n]);
      assert x == x[..n] + [x[n]] && y == y[..n] + [y[n]];
    }
  }

  // ---------------------------------------------------------------- tokens

  datatype Token = Number(value: nat) | Other(c: char)

  function Tokens(s: string): seq<Token>
    decreases |s|
  {
    if s == [] then []
    else
      var d := DigitRunOf(s);
      if d > 0 then [Number(Value(s[..d]))] + Tokens(s[d..]) else [Other(s[0])] + Tokens(s[1..])
  }

  /** Numbers by value, other characters by code, and a number where its digits stand. */
  predicate TokenLess(x: Token, y: Token) {
    match (x, y)
    case (Number(m), Number(n)) => m < n
    case (Number(_), Other(c)) => '9' < c
    case (Other(c), Number(_)) => c < '0'
    case (Other(c), Other(d)) => c < d
  }

  /** Token by token, a proper prefix first. */
  predicate TokensLess(x: seq<Token>, y: seq<Token>) {
    if y == [] then false
    else if x == [] then true
    else TokenLess(x[0], y[0]) || (x[0] == y[0] && TokensLess(x[1..], y[1..]))
  }

  /** Where both start with digits, comparing the trimmed runs compares the numbers. */
  lemma RunsCompareByValue(x: string, y: string)
    requires AllDigits(x) && AllDigits(y)
    ensures var nx, ny := TrimZeros(x), TrimZeros(y);
            && (|nx| != |ny| ==> (|nx| < |ny| <==> Value(x) < Value(y)) && Value(x) != Value(y))
            && (|nx| == |ny| && nx != ny ==> (Less(nx, ny) <==> Value(x) < Value(y)) && Value(x) != Value(y))
            && (nx == ny ==> Value(x) == Value(y))
  {
    TrimKeepsValue(x);
    TrimKeepsValue(y);
    var nx, ny := TrimZeros(x), TrimZeros(y);
    if |nx| < |ny| {
      LongerIsLarger(nx, ny);
    } else if |ny| < |nx| {
      LongerIsLarger(ny, nx);
    } else {
      SameLengthByValue(nx, ny);
    }
  }

  lemma TokensOfDigits(s: string)
    requires DigitRunOf(s) > 0
    ensures Tokens(s) != [] && Tokens(s)[0] == Number(Value(s[..DigitRunOf(s)]))
      && Tokens(s)[1..] == Tokens(s[DigitRunOf(s)..])
  {
  }

  lemma TokensOfOther(s: string)
    requires s != [] && DigitRunOf(s) == 0
    ensures Tokens(s) != [] && Tokens(s)[0] == Other(s[0]) && Tokens(s)[1..] == Tokens(s[1..])
  {
  }

  /** naturalLess is the order of the tokens. */
  method NaturalLess(x: string, y: string) returns (less: bool)
    ensures less == TokensLess(Tokens(x), Tokens(y))
  {
    hide Tokens, Value, TrimZeros, Less;
    var a, b := x, y;
    while a != "" && b != ""
      invariant TokensLess(Tokens(x), Tokens(y)) == TokensLess(Tokens(a), Tokens(b))
      decreases |a|
    {
      var da := DigitRun(a);
      var db := DigitRun(b);
      if da > 0 { TokensOfDigits(a); } else { TokensOfOther(a); }
      if db > 0 { TokensOfDigits(b); } else { TokensOfOther(b); }
      if da > 0 && db > 0 {
        var na, nb := TrimZeros(a[..da]), TrimZeros(b[..db]);
        RunsCompareByValue(a[..da], b[..db]);
        if |na| != |nb| {
          return |na| < |nb|;
        }
        if na != nb {
          return Less(na, nb);
        }
        a, b := a[da..], b[db..];
        continue;
      }
      if a[0] != b[0] {
        return a[0] < b[0];
      }
      a, b := a[1..], b[1..];
    }
    NoTokens(a);
    NoTokens(b);
    return |a| < |b|;
  }

  lemma NoTokens(s: string)
    ensures Tokens(s) == [] <==> s == []
  {
  }

  // ---------------------------------------------------------------- a strict weak order

  /** Of two keys exactly one comes first, or they are the same tokens. */
  lemma {:induction false} TokensTrichotomy(x: seq<Token>, y: seq<Token>)
    requires Proper(x) && Proper(y)
    ensures TokensLess(x, y) || TokensLess(y, x) || x == y
    ensures !(TokensLess(x, y) && TokensLess(y, x)) && !TokensLess(x, x)
  {
    if x != [] {
      TokensTrichotomy(x[1..], x[1..]);
    }
    if x != [] && y != [] {
      TokensTrichotomy(x[1..], y[1..]);
      assert x == [x[0]] + x[1..] && y == [y[0]] + y[1..];
    }
  }

  ghost predicate Proper(x: seq<Token>) {
    forall i :: 0 <= i < |x| && x[i].Other? ==> !IsDigit(x[i].c)
  }

  lemma {:induction false} TokensAreProper(s: string)
    ensures Proper(Tokens(s))
    decreases |s|
  {
    if s != [] {
      var d := DigitRunOf(s);
      TokensAreProper(if d > 0 then s[d..] else s[1..]);
    }
  }

  lemma {:induction false} TokensTransitive(x: seq<Token>, y: seq<Token>, z: seq<Token>)
    requires Proper(x) && Proper(y) && Proper(z) && TokensLess(x, y) && TokensLess(y, z)
    ensures TokensLess(x, z)
  {
    if x != [] && x[0] == y[0] == z[0] {
      TokensTransitive(x[1..], y[1..], z[1..]);
    }
  }

  /** Irreflexive, transitive, and keys that neither precedes are those with the same tokens. */
  lemma NaturalOrderIsStrictWeak(a: string, b: string, c: string)
    ensures !TokensLess(Tokens(a), Tokens(a))
    ensures TokensLess(Tokens(a), Tokens(b)) && TokensLess(Tokens(b), Tokens(c)) ==> TokensLess(Tokens(a), Tokens(c))
    ensures !TokensLess(Tokens(a), Tokens(b)) && !TokensLess(Tokens(b), Tokens(a)) <==> Tokens(a) == Tokens(b)
  {
    TokensAreProper(a);
    TokensAreProper(b);
    TokensAreProper(c);
    hide Proper, TokensLess, Tokens;
    TokensTrichotomy(Tokens(a), Tokens(b));
    TokensTrichotomy(Tokens(b), Tokens(b));
    if TokensLess(Tokens(a), Tokens(b)) && TokensLess(Tokens(b), Tokens(c)) {
      TokensTransitive(Tokens(a), Tokens(b), Tokens(c));
    }
  }

  // ---------------------------------------------------------------- the order of keys

  /** Keys without digits are ordered as strings are. */
  lemma {:induction false} PlainKeysAsStrings(a: string, b: string)
    requires forall c :: c in a || c in b ==> !IsDigit(c)
    ensures TokensLess(Tokens(a), Tokens(b)) <==> Less(a, b)
  {
    NoTokens(a);
    NoTokens(b);
    if a != "" && b != "" {
      assert a[0] in a && b[0] in b;
      TokensOfOther(a);
      TokensOfOther(b);
      hide Tokens;
      PlainKeysAsStrings(a[1..], b[1..]);
    }
  }

  /** What two keys begin with alike, up to something that is no digit, does not matter. */
  lemma {:induction false} SameStart(p: string, a: string, b: string)
    requires p == "" || !IsDigit(p[|p| - 1])
    ensures TokensLess(Tokens(p + a), Tokens(p + b)) <==> TokensLess(Tokens(a), Tokens(b))
    decreases |p|
  {
    if p == "" {
      assert p + a == a && p + b == b;
    } else {
      var d := DigitRunOf(p);
      var n := if d > 0 then d else 1;
      FirstToken(p, a);
      FirstToken(p, b);
      hide Tokens, TokensLess, Value, DigitRunOf;
      SameStart(p[n..], a, b);
      SameFirst(Tokens(p + a), Tokens(p + b));
    }
  }

  lemma SameFirst(x: seq<Token>, y: seq<Token>)
    requires x != [] && y != [] && x[0] == y[0]
    ensures TokensLess(x, y) <==> TokensLess(x[1..], y[1..])
  {
  }

  lemma FirstToken(p: string, a: string)
    requires p != "" && !IsDigit(p[|p| - 1])
    ensures var d := DigitRunOf(p);
            var n := if d > 0 then d else 1;
            && d < |p| && Tokens(p + a) != []
            && Tokens(p + a)[0] == (if d > 0 then Number(Value(p[..d])) else Other(p[0]))
            && Tokens(p + a)[1..] == Tokens(p[n..] + a)
  {
    var d := DigitRunOf(p);
    RunBefore(p, a);
    assert p[..|p|] == p;
    assert (p + a)[..d] == p[..d] && (p + a)[0] == p[0];
    if d > 0 {
      assert (p + a)[d..] == p[d..] + a;
      TokensOfDigits(p + a);
    } else {
      assert (p + a)[1..] == p[1..] + a;
      TokensOfOther(p + a);
    }
  }

  lemma {:induction false} RunBefore(p: string, a: string)
    requires p != "" && !IsDigit(p[|p| - 1])
    ensures DigitRunOf(p + a) == DigitRunOf(p) < |p|
  {
    if IsDigit(p[0]) {
      assert (p + a)[1..] == p[1..] + a;
      RunBefore(p[1..], a);
    }
  }

  /** The run of digits that a key goes on with. */
  ghost predicate Goes(digits: string, rest: string) {
    digits != "" && AllDigits(digits) && (rest == "" || !IsDigit(rest[0]))
  }

  lemma {:induction false} RunIs(digits: string, rest: string)
    requires AllDigits(digits) && (rest == "" || !IsDigit(rest[0]))
    ensures DigitRunOf(digits + rest) == |digits|
  {
    if digits == "" {
      assert digits + rest == rest;
    } else {
      assert (digits + rest)[1..] == digits[1..] + rest;
      RunIs(digits[1..], rest);
    }
  }

  lemma NumberFirst(digits: string, rest: string)
    requires Goes(digits, rest)
    ensures var t := Tokens(digits + rest); t != [] && t[0] == Number(Value(digits)) && t[1..] == Tokens(rest)
  {
    RunIs(digits, rest);
    TokensOfDigits(digits + rest);
    assert (digits + rest)[..|digits|] == digits && (digits + rest)[|digits|..] == rest;
  }

  /** Keys that go on with numbers are in the order of the numbers; the same number leaves it to what follows. */
  lemma NumbersDecide(p: string, x: string, q: string, y: string, r: string)
    requires (p == "" || !IsDigit(p[|p| - 1])) && Goes(x, q) && Goes(y, r)
    ensures TokensLess(Tokens(p + (x + q)), Tokens(p + (y + r))) <==>
            Value(x) < Value(y) || (Value(x) == Value(y) && TokensLess(Tokens(q), Tokens(r)))
  {
    SameStart(p, x + q, y + r);
    NumberFirst(x, q);
    NumberFirst(y, r);
    hide Tokens, Value;
  }

  /** A numeral stands for its number. */
  lemma {:induction false} ValueOfDecimal(n: nat)
    ensures AllDigits(Decimal(n)) && Decimal(n) != "" && Value(Decimal(n)) == n
  {
    if n >= 10 {
      ValueOfDecimal(n / 10);
      assert Decimal(n)[..|Decimal(n)| - 1] == Decimal(n / 10);
    } else {
      assert Decimal(n)[..0] == "";
    }
  }

  /** "a9" before "a10", whatever the numbers. */
  lemma NumberedKeysInOrder(p: string, m: nat, n: nat)
    requires p == "" || !IsDigit(p[|p| - 1])
    ensures TokensLess(Tokens(p + Decimal(m)), Tokens(p + Decimal(n))) <==> m < n
  {
    ValueOfDecimal(m);
    ValueOfDecimal(n);
    assert !TokensLess(Tokens(""), Tokens(""));
    hide Tokens, Value, Decimal, TokensLess;
    assert Decimal(m) + "" == Decimal(m) && Decimal(n) + "" == Decimal(n);
    NumbersDecide(p, Decimal(m), "", Decimal(n), "");
  }
}
