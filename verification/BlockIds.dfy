/**
 * The ids of `packages/aggregation/src/block.ts`: the JSON text of the ordered key fields, followed by
 * the suffix of a split. Hub ids may contain any character, quotes, commas, brackets and control
 * characters included; escaping keeps the field boundaries apart, so no two keys share a text, and a
 * key and suffix can be read back from the id.
 */
module BlockIds {
  import opened PlanningTypes

  // ----- JSON text ---------------------------------------------------------------------

  function HexDigit(n: nat): char
    requires n < 16
  {
    "0123456789abcdef"[n]
  }

  function Escaped(c: char): string {
    if c == '\"' then "\\\""
    else if c == '\\' then "\\\\"
    else if c as int == 8 then "\\b"
    else if c as int == 9 then "\\t"
    else if c as int == 10 then "\\n"
    else if c as int == 12 then "\\f"
    else if c as int == 13 then "\\r"
    else if c as int < 32 then "\\u00" + [HexDigit(c as int / 16), HexDigit(c as int % 16)]
    else [c]
  }

  function EscapedAll(s: string): string {
    if s == [] then [] else Escaped(s[0]) + EscapedAll(s[1..])
  }

  function Quoted(s: string): string {
    "\"" + EscapedAll(s) + "\""
  }

  function Decimal(n: nat): (s: string)
    ensures s != []
  {
    if n < 10 then ["0123456789"[n]] else Decimal(n / 10) + ["0123456789"[n % 10]]
  }

  function SlaName(c: SlaClass): string {
    match c case EXPRESS => "express" case PRIORITY => "priority" case STANDARD => "standard" case ECONOMY => "economy"
  }

  function HandlingName(c: HandlingClass): string {
    match c case Standard => "standard" case Fragile => "fragile" case Heavy => "heavy"
  }

  function SizeName(c: SizeWeightClass): string {
    match c case Small => "small" case Medium => "medium" case Large => "large"
  }

  function KeyId(k: BlockKey): string {
    "[" + (Quoted(k.currentHubId) + ("," + (Quoted(k.nextUnloadHubId) + ("," + (Quoted(k.finalDestHubId) + ("," +
    (Quoted(SlaName(k.slaClass)) + ("," + (Decimal(k.deadlineBucket) + ("," + (Quoted(HandlingName(k.handlingClass)) +
    ("," + (Quoted(SizeName(k.sizeWeightClass)) + "]")))))))))))))
  }

  function BlockId(k: BlockKey, suffix: string): string {
    "LB-" + (KeyId(k) + suffix)
  }

  // ----- Reading it back ------------------------------------------------------------------

  lemma HexDigitsDiffer(m: nat, n: nat)
    requires m < 16 && n < 16 && HexDigit(m) == HexDigit(n)
    ensures m == n
  {
  }

  lemma SameControl(c: char, d: char)
    requires c as int < 32 && d as int < 32
    requires HexDigit(c as int / 16) == HexDigit(d as int / 16) && HexDigit(c as int % 16) == HexDigit(d as int % 16)
    ensures c == d
  {
    HexDigitsDiffer(c as int / 16, d as int / 16);
    HexDigitsDiffer(c as int % 16, d as int % 16);
    assert c as int == d as int;
  }

  lemma EscapedStart(c: char)
    ensures Escaped(c) != [] && Escaped(c)[0] != '\"'
    ensures |Escaped(c)| > 1 <==> Escaped(c)[0] == '\\'
    ensures |Escaped(c)| == 1 ==> Escaped(c) == [c]
    ensures |Escaped(c)| in {1, 2, 6}
    ensures |Escaped(c)| > 1 ==> (|Escaped(c)| == 6 <==> Escaped(c)[1] == 'u')
  {
  }

  lemma SameEscape(c: char, d: char)
    requires Escaped(c) == Escaped(d)
    ensures c == d
  {
    EscapedStart(c);
    EscapedStart(d);
    if |Escaped(c)| == 6 {
      assert Escaped(c)[4] == HexDigit(c as int / 16) && Escaped(c)[5] == HexDigit(c as int % 16);
      assert Escaped(d)[4] == HexDigit(d as int / 16) && Escaped(d)[5] == HexDigit(d as int % 16);
      SameControl(c, d);
    } else if |Escaped(c)| == 2 {
      assert Escaped(c)[1] == Escaped(d)[1];
    }
  }

  lemma SplitEqual(a: string, x: string, b: string, y: string)
    requires a + x == b + y && |a| == |b|
    ensures a == b && x == y
  {
    assert a == (a + x)[..|a|] && b == (b + y)[..|b|];
    assert x == (a + x)[|a|..] && y == (b + y)[|b|..];
  }

  lemma EscapesApart(c: char, x: string, d: char, y: string)
    requires Escaped(c) + x == Escaped(d) + y
    ensures c == d && x == y
  {
    hide Escaped;
    EscapedStart(c);
    EscapedStart(d);
    assert (Escaped(c) + x)[0] == Escaped(c)[0] && (Escaped(d) + y)[0] == Escaped(d)[0];
    assert |Escaped(c)| > 1 ==> (Escaped(c) + x)[1] == Escaped(c)[1];
    assert |Escaped(d)| > 1 ==> (Escaped(d) + y)[1] == Escaped(d)[1];
    SplitEqual(Escaped(c), x, Escaped(d), y);
    SameEscape(c, d);
  }

  lemma {:induction false} BodiesApart(s: string, x: string, t: string, y: string)
    requires EscapedAll(s) + ("\"" + x) == EscapedAll(t) + ("\"" + y)
    ensures s == t && x == y
    decreases |s|
  {
    hide Escaped;
    if s != [] && t != [] {
      Regroup(s, x);
      Regroup(t, y);
      EscapesApart(s[0], EscapedAll(s[1..]) + ("\"" + x), t[0], EscapedAll(t[1..]) + ("\"" + y));
      BodiesApart(s[1..], x, t[1..], y);
      assert s == [s[0]] + s[1..] && t == [t[0]] + t[1..];
    } else if s != [] {
      StartsEscaped(s, x, y);
    } else if t != [] {
      StartsEscaped(t, y, x);
    } else {
      assert EscapedAll(s) + ("\"" + x) == "\"" + x && EscapedAll(t) + ("\"" + y) == "\"" + y;
      SplitEqual("\"", x, "\"", y);
    }
  }

  lemma Regroup(s: string, x: string)
    requires s != []
    ensures EscapedAll(s) + ("\"" + x) == Escaped(s[0]) + (EscapedAll(s[1..]) + ("\"" + x))
  {
  }

  lemma StartsEscaped(s: string, x: string, y: string)
    requires s != []
    ensures EscapedAll(s) + ("\"" + x) != "\"" + y
    ensures EscapedAll(s) + ("\"" + x) != EscapedAll([]) + ("\"" + y)
  {
    EscapedStart(s[0]);
    assert (EscapedAll(s) + ("\"" + x))[0] == Escaped(s[0])[0];
    assert ("\"" + y)[0] == '\"' && EscapedAll([]) + ("\"" + y) == "\"" + y;
  }

  /** A quoted string ends where its closing quote is, whatever it contains. */
  lemma QuotesApart(s: string, x: string, t: string, y: string)
    requires Quoted(s) + x == Quoted(t) + y
    ensures s == t && x == y
  {
    hide EscapedAll;
    assert Quoted(s) + x == "\"" + (EscapedAll(s) + ("\"" + x));
    assert Quoted(t) + y == "\"" + (EscapedAll(t) + ("\"" + y));
    SplitEqual("\"", EscapedAll(s) + ("\"" + x), "\"", EscapedAll(t) + ("\"" + y));
    BodiesApart(s, x, t, y);
  }

  predicate IsDigit(c: char) { '0' <= c <= '9' }

  lemma {:induction false} DecimalDigits(n: nat)
    ensures forall i :: 0 <= i < |Decimal(n)| ==> IsDigit(Decimal(n)[i])
  {
    if n >= 10 { DecimalDigits(n / 10); }
  }

  lemma {:induction false} DecimalIsInjective(m: nat, n: nat)
    requires Decimal(m) == Decimal(n)
    ensures m == n
  {
    DecimalLength(m);
    DecimalLength(n);
    if m >= 10 {
      SplitEqual(Decimal(m / 10), ["0123456789"[m % 10]], Decimal(n / 10), ["0123456789"[n % 10]]);
      DecimalIsInjective(m / 10, n / 10);
      SameDigit(m % 10, n % 10);
    } else {
      SameDigit(m, n);
    }
  }

  lemma DecimalLength(n: nat)
    ensures |Decimal(n)| > 1 <==> n >= 10
  {
  }

  lemma ShorterNumberDiffers(a: string, x: string, b: string, y: string)
    requires |a| < |b| && forall i :: 0 <= i < |b| ==> IsDigit(b[i])
    ensures a + ("," + x) != b + y
  {
    var p, q := a + ("," + x), b + y;
    assert p[|a|] == ',' && q[|a|] == b[|a|];
  }

  lemma SameDigit(m: nat, n: nat)
    requires m < 10 && n < 10 && ["0123456789"[m]] == ["0123456789"[n]]
    ensures m == n
  {
    assert "0123456789"[m] == "0123456789"[n];
  }

  /** A number ends at the first character that is not a digit. */
  lemma NumbersApart(m: nat, x: string, n: nat, y: string)
    requires Decimal(m) + ("," + x) == Decimal(n) + ("," + y)
    ensures m == n && x == y
  {
    hide Decimal;
    DecimalDigits(m);
    DecimalDigits(n);
    var a, b := Decimal(m), Decimal(n);
    if |a| < |b| { ShorterNumberDiffers(a, x, b, "," + y); }
    if |b| < |a| { ShorterNumberDiffers(b, y, a, "," + x); }
    SplitEqual(a, "," + x, b, "," + y);
    SplitEqual(",", x, ",", y);
    DecimalIsInjective(m, n);
  }

  // ----- Two ids are equal exactly when key and suffix are ------------------------------------

  lemma CommaQuotesApart(s: string, x: string, t: string, y: string)
    requires "," + (Quoted(s) + x) == "," + (Quoted(t) + y)
    ensures s == t && x == y
  {
    SplitEqual(",", Quoted(s) + x, ",", Quoted(t) + y);
    QuotesApart(s, x, t, y);
  }

  function FromSize(k: BlockKey, x: string): string { "," + (Quoted(SizeName(k.sizeWeightClass)) + ("]" + x)) }

  function FromHandling(k: BlockKey, x: string): string { "," + (Quoted(HandlingName(k.handlingClass)) + FromSize(k, x)) }

  function FromBucket(k: BlockKey, x: string): string { "," + (Decimal(k.deadlineBucket) + FromHandling(k, x)) }

  function FromSla(k: BlockKey, x: string): string { "," + (Quoted(SlaName(k.slaClass)) + FromBucket(k, x)) }

  function FromFinal(k: BlockKey, x: string): string { "," + (Quoted(k.finalDestHubId) + FromSla(k, x)) }

  function FromNext(k: BlockKey, x: string): string { "," + (Quoted(k.nextUnloadHubId) + FromFinal(k, x)) }

  lemma KeyIdInParts(k: BlockKey, x: string)
    ensures KeyId(k) + x == "[" + (Quoted(k.currentHubId) + FromNext(k, x))
  {
    hide Quoted, Decimal, SlaName, HandlingName, SizeName;
    var s6 := "," + (Quoted(SizeName(k.sizeWeightClass)) + "]");
    assert s6 + x == FromSize(k, x);
    var s5 := "," + (Quoted(HandlingName(k.handlingClass)) + s6);
    assert s5 + x == FromHandling(k, x);
    var s4 := "," + (Decimal(k.deadlineBucket) + s5);
    assert s4 + x == FromBucket(k, x);
    var s3 := "," + (Quoted(SlaName(k.slaClass)) + s4);
    assert s3 + x == FromSla(k, x);
    var s2 := "," + (Quoted(k.finalDestHubId) + s3);
    assert s2 + x == FromFinal(k, x);
    var s1 := "," + (Quoted(k.nextUnloadHubId) + s2);
    assert s1 + x == FromNext(k, x);
    assert KeyId(k) == "[" + (Quoted(k.currentHubId) + s1);
  }

  lemma LowerPartsApart(k: BlockKey, x: string, l: BlockKey, y: string)
    requires FromSla(k, x) == FromSla(l, y)
    ensures k.slaClass == l.slaClass && k.deadlineBucket == l.deadlineBucket
    ensures k.handlingClass == l.handlingClass && k.sizeWeightClass == l.sizeWeightClass && x == y
  {
    hide Quoted, Decimal;
    CommaQuotesApart(SlaName(k.slaClass), FromBucket(k, x), SlaName(l.slaClass), FromBucket(l, y));
    SplitEqual(",", Decimal(k.deadlineBucket) + FromHandling(k, x), ",", Decimal(l.deadlineBucket) + FromHandling(l, y));
    NumbersApart(k.deadlineBucket, Quoted(HandlingName(k.handlingClass)) + FromSize(k, x),
                 l.deadlineBucket, Quoted(HandlingName(l.handlingClass)) + FromSize(l, y));
    QuotesApart(HandlingName(k.handlingClass), FromSize(k, x), HandlingName(l.handlingClass), FromSize(l, y));
    CommaQuotesApart(SizeName(k.sizeWeightClass), "]" + x, SizeName(l.sizeWeightClass), "]" + y);
    SplitEqual("]", x, "]", y);
    EnumNames(k, l);
  }

  lemma EnumNames(k: BlockKey, l: BlockKey)
    ensures SlaName(k.slaClass) == SlaName(l.slaClass) ==> k.slaClass == l.slaClass
    ensures HandlingName(k.handlingClass) == HandlingName(l.handlingClass) ==> k.handlingClass == l.handlingClass
    ensures SizeName(k.sizeWeightClass) == SizeName(l.sizeWeightClass) ==> k.sizeWeightClass == l.sizeWeightClass
  {
    assert SlaName(EXPRESS)[0] == 'e' && SlaName(ECONOMY)[1] == 'c' && SlaName(EXPRESS)[1] == 'x';
    assert SlaName(PRIORITY)[0] == 'p' && SlaName(STANDARD)[0] == 's' && SlaName(ECONOMY)[0] == 'e';
    assert HandlingName(Standard)[0] == 's' && HandlingName(Fragile)[0] == 'f' && HandlingName(Heavy)[0] == 'h';
    assert SizeName(Small)[0] == 's' && SizeName(Medium)[0] == 'm' && SizeName(Large)[0] == 'l';
  }

  /** Two block ids are the same text if and only if both the key and the suffix are the same. */
  lemma BlockIdIsInjective(k: BlockKey, x: string, l: BlockKey, y: string)
    ensures BlockId(k, x) == BlockId(l, y) <==> k == l && x == y
  {
    hide KeyId, Quoted, FromNext;
    if BlockId(k, x) == BlockId(l, y) {
      SplitEqual("LB-", KeyId(k) + x, "LB-", KeyId(l) + y);
      KeyIdsApart(k, x, l, y);
    }
  }

  lemma KeyIdsApart(k: BlockKey, x: string, l: BlockKey, y: string)
    requires KeyId(k) + x == KeyId(l) + y
    ensures k == l && x == y
  {
    hide KeyId, Quoted, FromSla;
    KeyIdInParts(k, x);
    KeyIdInParts(l, y);
    SplitEqual("[", Quoted(k.currentHubId) + FromNext(k, x), "[", Quoted(l.currentHubId) + FromNext(l, y));
    QuotesApart(k.currentHubId, FromNext(k, x), l.currentHubId, FromNext(l, y));
    CommaQuotesApart(k.nextUnloadHubId, FromFinal(k, x), l.nextUnloadHubId, FromFinal(l, y));
    CommaQuotesApart(k.finalDestHubId, FromSla(k, x), l.finalDestHubId, FromSla(l, y));
    LowerPartsApart(k, x, l, y);
  }
}
