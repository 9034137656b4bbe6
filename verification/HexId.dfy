/**
 Repairing ids of OTLP/JSON that were taken for base64: hexDecodeID of
 internal/tracing/receiver.go. Base64 is the standard encoding of section 4 of RFC 4648,
 hexadecimal that of section 8. A character stands for a byte of text.
 */
module HexId {
  import opened Wrappers
  import opened ByteStrings

  // ---------------------------------------------------------------- base64

  function Symbol(v: nat): char
    requires v < 64
  {
    if v < 26 then 'A' + v as char
    else if v < 52 then 'a' + (v - 26) as char
    else if v < 62 then '0' + (v - 52) as char
    else if v == 62 then '+' else '/'
  }

  function Sextet(c: char): Option<nat> {
    if 'A' <= c <= 'Z' then Some((c - 'A') as nat)
    else if 'a' <= c <= 'z' then Some((c - 'a') as nat + 26)
    else if '0' <= c <= '9' then Some((c - '0') as nat + 52)
    else if c == '+' then Some(62) else if c == '/' then Some(63) else None
  }

  /** Three bytes are four symbols; one or two are padded with '='. */
  function Encode(b: Bytes): string {
    if b == [] then ""
    else if |b| == 1 then [Symbol((b[0] as nat) / 4), Symbol((b[0] as nat) % 4 * 16), '=', '=']
    else if |b| == 2 then Four(b[0], b[1], 0)[..3] + ['=']
    else Four(b[0], b[1], b[2]) + Encode(b[3..])
  }

  function Four(x: Byte, y: Byte, z: Byte): (s: string)
    ensures |s| == 4
  {
    var x, y, z := x as nat, y as nat, z as nat;
    [Symbol(x / 4), Symbol(x % 4 * 16 + y / 16), Symbol(y % 16 * 4 + z / 64), Symbol(z % 64)]
  }

  /** What protojson makes of text without padding, in `n` groups of four. */
  function Decode(s: string, n: nat): (b: Bytes)
    requires AllSymbols(s) && |s| == 4 * n
    ensures |b| == 3 * n
  {
    if n == 0 then [] else ThreeOf(s) + Decode(s[4..], n - 1)
  }

  function ThreeOf(s: string): (b: Bytes)
    requires AllSymbols(s) && |s| >= 4
    ensures |b| == 3
  {
    Three(Sextet(s[0]).value, Sextet(s[1]).value, Sextet(s[2]).value, Sextet(s[3]).value)
  }

  function Three(p: nat, q: nat, r: nat, t: nat): (b: Bytes)
    requires p < 64 && q < 64 && r < 64 && t < 64
    ensures |b| == 3 && b[0] as nat == p * 4 + q / 16 && b[1] as nat == q % 16 * 16 + r / 4 && b[2] as nat == r % 4 * 64 + t
  {
    [(p * 4 + q / 16) as Byte, (q % 16 * 16 + r / 4) as Byte, (r % 4 * 64 + t) as Byte]
  }

  predicate AllSymbols(s: string) {
    forall i :: 0 <= i < |s| ==> Sextet(s[i]).Some? && Sextet(s[i]).value < 64
  }

  lemma SymbolOfSextet(c: char)
    requires Sextet(c).Some?
    ensures Sextet(c).value < 64 && Symbol(Sextet(c).value) == c
  {
  }

  lemma Sixes(p: nat, q: nat, r: nat, t: nat)
    requires p < 64 && q < 64 && r < 64 && t < 64
    ensures (p * 4 + q / 16) / 4 == p && (p * 4 + q / 16) % 4 * 16 + (q % 16 * 16 + r / 4) / 16 == q
    ensures (q % 16 * 16 + r / 4) % 16 * 4 + (r % 4 * 64 + t) / 64 == r && (r % 4 * 64 + t) % 64 == t
  {
  }

  lemma FourOfThree(p: nat, q: nat, r: nat, t: nat)
    requires p < 64 && q < 64 && r < 64 && t < 64
    ensures var b := Three(p, q, r, t); Four(b[0], b[1], b[2]) == [Symbol(p), Symbol(q), Symbol(r), Symbol(t)]
  {
    hide Symbol, Three;
    Sixes(p, q, r, t);
    var b := Three(p, q, r, t);
    FourIs(b[0], b[1], b[2], p, q, r, t);
  }

  lemma FourIs(x: Byte, y: Byte, z: Byte, p: nat, q: nat, r: nat, t: nat)
    requires p < 64 && q < 64 && r < 64 && t < 64
    requires (x as nat) / 4 == p && (x as nat) % 4 * 16 + (y as nat) / 16 == q
    requires (y as nat) % 16 * 4 + (z as nat) / 64 == r && (z as nat) % 64 == t
    ensures Four(x, y, z) == [Symbol(p), Symbol(q), Symbol(r), Symbol(t)]
  {
  }

  lemma EncodeGroup(g: Bytes, rest: Bytes)
    requires |g| == 3
    ensures Encode(g + rest) == Four(g[0], g[1], g[2]) + Encode(rest)
  {
  }

  lemma GroupBack(s: string)
    requires AllSymbols(s) && |s| >= 4
    ensures var b := ThreeOf(s); Four(b[0], b[1], b[2]) == s[..4]
  {
    FourOfThree(Sextet(s[0]).value, Sextet(s[1]).value, Sextet(s[2]).value, Sextet(s[3]).value);
    SymbolOfSextet(s[0]);
    SymbolOfSextet(s[1]);
    SymbolOfSextet(s[2]);
    SymbolOfSextet(s[3]);
    hide Sextet, Symbol, Four, Three, AllSymbols;
  }

  /** Encoding what text decodes to gives back the text. */
  lemma {:induction false} EncodeDecode(s: string, n: nat)
    requires AllSymbols(s) && |s| == 4 * n
    ensures Encode(Decode(s, n)) == s
  {
    hide Four, ThreeOf, Sextet;
    if n > 0 {
      GroupBack(s);
      EncodeDecode(s[4..], n - 1);
      EncodeGroup(ThreeOf(s), Decode(s[4..], n - 1));
      assert s == s[..4] + s[4..];
    }
  }

  const UPPER := "ABCDEFGHIJKLMNOPQRSTUVWXYZ"
  const LOWER := "abcdefghijklmnopqrstuvwxyz"
  const OTHERS := "0123456789+/"
  const ALPHABET := UPPER + LOWER + OTHERS

  lemma UpperIs(v: nat)
    requires v < |UPPER|
    ensures Sextet(UPPER[v]) == Some(v) && Symbol(v) == UPPER[v]
  {
  }

  lemma LowerIs(v: nat)
    requires v < |LOWER|
    ensures Sextet(LOWER[v]) == Some(26 + v) && Symbol(26 + v) == LOWER[v]
  {
  }

  lemma OtherIs(v: nat)
    requires v < |OTHERS|
    ensures Sextet(OTHERS[v]) == Some(52 + v) && Symbol(52 + v) == OTHERS[v]
  {
  }

  lemma AlphabetSizes()
    ensures |UPPER| == |LOWER| == 26 && |OTHERS| == 12 && ALPHABET == UPPER + LOWER + OTHERS
  {
  }

  lemma SextetIs(v: nat)
    requires v < 64
    ensures |ALPHABET| == 64 && Sextet(ALPHABET[v]) == Some(v) && Symbol(v) == ALPHABET[v]
  {
    hide *;
    AlphabetSizes();
    if v < 26 {
      UpperIs(v);
    } else if v < 52 {
      LowerIs(v - 26);
    } else {
      OtherIs(v - 52);
    }
  }

  /** Each four symbols and the three bytes they are read as are one number of 24 bits. */
  lemma {:induction false} DecodeKeepsBits(s: string, n: nat, i: nat)
    requires AllSymbols(s) && |s| == 4 * n && i < n
    ensures var b := Decode(s, n);
            b[3 * i] as nat * 65536 + b[3 * i + 1] as nat * 256 + b[3 * i + 2] as nat ==
            Sextet(s[4 * i]).value * 262144 + Sextet(s[4 * i + 1]).value * 4096 + Sextet(s[4 * i + 2]).value * 64
            + Sextet(s[4 * i + 3]).value
  {
    hide Sextet;
    var g, b := ThreeOf(s), Decode(s, n);
    assert b == g + Decode(s[4..], n - 1);
    if i > 0 {
      DecodeKeepsBits(s[4..], n - 1, i - 1);
      hide ThreeOf, Decode, AllSymbols;
      var rest, j := Decode(s[4..], n - 1), i - 1;
      assert b[3 * i] == rest[3 * j] && b[3 * i + 1] == rest[3 * j + 1] && b[3 * i + 2] == rest[3 * j + 2];
      assert s[4 * i] == s[4..][4 * j] && s[4 * i + 1] == s[4..][4 * j + 1];
      assert s[4 * i + 2] == s[4..][4 * j + 2] && s[4 * i + 3] == s[4..][4 * j + 3];
    } else {
      ThreeKeepBits(Sextet(s[0]).value, Sextet(s[1]).value, Sextet(s[2]).value, Sextet(s[3]).value);
    }
  }

  lemma ThreeKeepBits(p: nat, q: nat, r: nat, t: nat)
    requires p < 64 && q < 64 && r < 64 && t < 64
    ensures var b := Three(p, q, r, t);
            b[0] as nat * 65536 + b[1] as nat * 256 + b[2] as nat == p * 262144 + q * 4096 + r * 64 + t
  {
  }

  // ---------------------------------------------------------------- hexadecimal

  function HexDigit(c: char): Option<nat> {
    if '0' <= c <= '9' then Some((c - '0') as nat)
    else if 'a' <= c <= 'f' then Some((c - 'a') as nat + 10)
    else if 'A' <= c <= 'F' then Some((c - 'A') as nat + 10)
    else None
  }

  /** hex.DecodeString: pairs of digits of either case, or an error. */
  function FromHex(s: string): Option<Bytes> {
    if s == "" then Some([])
    else if |s| < 2 || HexDigit(s[0]).None? || HexDigit(s[1]).None? then None
    else
      match FromHex(s[2..])
      case None => None
      case Some(rest) => Some([Pair(HexDigit(s[0]).value, HexDigit(s[1]).value)] + rest)
  }

  function Pair(h: nat, l: nat): Byte {
    if h < 16 && l < 16 then (h * 16 + l) as Byte else 0
  }

  lemma {:induction false} HexIsSymbols(s: string)
    requires FromHex(s).Some?
    ensures AllSymbols(s) && |s| == 2 * |FromHex(s).value|
  {
    if s != "" {
      HexIsSymbols(s[2..]);
      assert forall i :: 2 <= i < |s| ==> s[i] == s[2..][i - 2];
    }
  }

  /** A hexadecimal digit, of either case. */
  predicate IsHexDigit(c: char, d: nat)
    requires d < 16
  {
    c == "0123456789abcdef"[d] || c == "0123456789ABCDEF"[d]
  }

  /** An id written out: two digits for each byte, the high half first. */
  ghost predicate IsHexText(id: Bytes, text: string) {
    && |text| == 2 * |id|
    && forall i :: 0 <= i < |id| ==> IsHexDigit(text[2 * i], id[i] as nat / 16) && IsHexDigit(text[2 * i + 1], id[i] as nat % 16)
  }

  lemma HexDigitIs(c: char, d: nat)
    requires d < 16
    ensures IsHexDigit(c, d) <==> HexDigit(c) == Some(d)
  {
  }

  lemma HexPairIs(h: char, l: char, b: Byte)
    ensures IsHexDigit(h, b as nat / 16) && IsHexDigit(l, b as nat % 16) <==>
            HexDigit(h).Some? && HexDigit(l).Some? && Pair(HexDigit(h).value, HexDigit(l).value) == b
  {
    HexDigitIs(h, b as nat / 16);
    HexDigitIs(l, b as nat % 16);
    assert HexDigit(h).Some? ==> HexDigit(h).value < 16;
    assert HexDigit(l).Some? ==> HexDigit(l).value < 16;
    hide IsHexDigit, HexDigit;
  }

  /** hex.DecodeString reads exactly what is an id written out. */
  lemma {:induction false} FromHexIff(id: Bytes, text: string)
    ensures IsHexText(id, text) <==> FromHex(text) == Some(id)
  {
    if id == [] || |text| < 2 {
      return;
    }
    FromHexIff(id[1..], text[2..]);
    HexPairIs(text[0], text[1], id[0]);
    HexTextIs(id, text);
    FromHexIs(id, text);
    hide *;
  }

  lemma FromHexIs(id: Bytes, text: string)
    requires id != [] && |text| >= 2
    ensures FromHex(text) == Some(id) <==>
            && HexDigit(text[0]).Some? && HexDigit(text[1]).Some?
            && Pair(HexDigit(text[0]).value, HexDigit(text[1]).value) == id[0] && FromHex(text[2..]) == Some(id[1..])
  {
    hide HexDigit, Pair;
    assert id == [id[0]] + id[1..];
    if FromHex(text) == Some(id) {
      assert id[1..] == FromHex(text[2..]).value;
    }
  }

  lemma HexTextIs(id: Bytes, text: string)
    requires id != [] && |text| >= 2
    ensures IsHexText(id, text) <==>
            IsHexDigit(text[0], id[0] as nat / 16) && IsHexDigit(text[1], id[0] as nat % 16) && IsHexText(id[1..], text[2..])
  {
    hide IsHexDigit;
    var a, b := id[1..], text[2..];
    assert forall i :: 0 <= i < |a| ==> a[i] == id[i + 1];
    if IsHexText(a, b) && IsHexDigit(text[0], id[0] as nat / 16) && IsHexDigit(text[1], id[0] as nat % 16) {
      forall i | 0 <= i < |id|
        ensures IsHexDigit(text[2 * i], id[i] as nat / 16) && IsHexDigit(text[2 * i + 1], id[i] as nat % 16)
      {
        if i > 0 {
          assert text[2 * i] == b[2 * (i - 1)] && text[2 * i + 1] == b[2 * (i - 1) + 1] && id[i] == a[i - 1];
        }
      }
    }
    if IsHexText(id, text) {
      forall i | 0 <= i < |a|
        ensures IsHexDigit(b[2 * i], a[i] as nat / 16) && IsHexDigit(b[2 * i + 1], a[i] as nat % 16)
      {
        assert b[2 * i] == text[2 * (i + 1)] && b[2 * i + 1] == text[2 * (i + 1) + 1] && id[i + 1] == a[i];
      }
    }
  }

  /** hexDecodeID */
  function Repair(b: Bytes, want: nat): Bytes {
    if |b| == want || |b| == 0 then b
    else
      var decoded := FromHex(Encode(b));
      if decoded.Some? && |decoded.value| == want then decoded.value else b
  }

  /** An id sent as hex, of either case, taken for base64, is repaired: 16 bytes for a trace, 8 for a span. */
  lemma RepairUndoesBase64(id: Bytes, text: string, groups: nat)
    requires (|id| == 8 && groups == 4) || (|id| == 16 && groups == 8)
    requires IsHexText(id, text)
    ensures AllSymbols(text) && |text| == 4 * groups && Repair(Decode(text, groups), |id|) == id
  {
    FromHexIff(id, text);
    HexIsSymbols(text);
    hide *;
    EncodeDecode(text, groups);
    RepairIs(Decode(text, groups), |id|);
  }

  lemma RepairIs(b: Bytes, want: nat)
    ensures |b| == want || |b| == 0 ==> Repair(b, want) == b
    ensures |b| != want && |b| != 0 ==>
              Repair(b, want) ==
              var decoded := FromHex(Encode(b)); if decoded.Some? && |decoded.value| == want then decoded.value else b
  {
  }

  /** An id of the right length, and an empty one, are left; and repairing twice is repairing once. */
  lemma RepairIsIdempotent(b: Bytes, want: nat)
    ensures |b| == want || b == [] ==> Repair(b, want) == b
    ensures Repair(Repair(b, want), want) == Repair(b, want)
  {
  }

  lemma {:induction false} EncodedLength(b: Bytes)
    ensures |Encode(b)| == (|b| + 2) / 3 * 4
  {
    if |b| >= 3 {
      EncodedLength(b[3..]);
    }
  }

  /** Whatever is changed was three quarters of the id's hex text: 24 bytes for a trace, 12 for a span. */
  lemma OnlyMisreadIdsChange(b: Bytes, want: nat)
    requires want == 8 || want == 16
    requires Repair(b, want) != b
    ensures |b| == want / 2 * 3 && IsHexText(Repair(b, want), Encode(b))
  {
    hide *;
    FromHexIff(Repair(b, want), Encode(b));
    RepairIs(b, want);
    HexIsSymbols(Encode(b));
    EncodedLength(b);
    EndsPadded(b);
    PaddingIsNoSymbol(Encode(b));
    ThreeQuarters(|b|, want);
  }

  lemma PaddingIsNoSymbol(s: string)
    requires s != "" && AllSymbols(s)
    ensures s[|s| - 1] != '='
  {
  }

  lemma ThreeQuarters(n: nat, want: nat)
    requires want == 8 || want == 16
    ensures n % 3 == 0 && (n + 2) / 3 * 4 == 2 * want ==> n == want / 2 * 3
  {
  }

  /** Padding is no symbol, so text with padding is not hex. */
  lemma {:induction false} EndsPadded(b: Bytes)
    ensures |b| % 3 != 0 ==> Encode(b) != "" && Encode(b)[|Encode(b)| - 1] == '='
  {
    if |b| >= 3 {
      EndsPadded(b[3..]);
    }
  }
}
