// How BillForm reads its inputs: the tip percentage from the slider position,
// the validity of the bill text, and the 32-bit counter arithmetic of Kotlin's
// Int. Positions are exact reals; Float rounding is not modelled.
module Inputs {

  const IntMin: int := -0x8000_0000
  const IntMax: int := 0x7fff_ffff

  /** Rounding toward zero: the integer part of `x`, keeping its sign. */
  function TruncateTowardZero(x: real): (n: int)
    ensures 0.0 <= x ==> 0 <= n && n as real <= x < n as real + 1.0
    ensures x < 0.0 ==> n <= 0 && n as real - 1.0 < x <= n as real
  {
    if 0.0 <= x then x.Floor else -((-x).Floor)
  }

  /** Kotlin's Float.toInt: rounds toward zero and saturates at the bounds of Int. */
  function FloatToInt(x: real): (n: int)
    ensures IntMin <= n <= IntMax
    ensures IntMin as real < x < IntMax as real ==> n == TruncateTowardZero(x)
    ensures x >= IntMax as real ==> n == IntMax
    ensures x <= IntMin as real ==> n == IntMin
  {
    if x >= IntMax as real then IntMax
    else if x <= IntMin as real then IntMin
    else TruncateTowardZero(x)
  }

  /** The tip percentage shown for a slider position: position times 100,
      truncated. On the slider's range [0, 1] it is the whole number of
      percent not exceeding 100 * position, so it lies in 0..100 and reaches
      100 only at the right end. */
  function TipPercentage(position: real): (pct: int)
    ensures 0.0 <= position <= 1.0 ==>
              0 <= pct <= 100 && pct as real <= position * 100.0 < pct as real + 1.0
    ensures 0.0 <= position <= 1.0 ==> (pct == 100 <==> position == 1.0)
  {
    FloatToInt(position * 100.0)
  }

  /** Moving the slider to the right never lowers the percentage. */
  lemma TipPercentageIsMonotone(p1: real, p2: real)
    requires p1 <= p2
    ensures TipPercentage(p1) <= TipPercentage(p2)
  {
    var x1, x2 := p1 * 100.0, p2 * 100.0;
    if IntMin as real < x1 && x2 < IntMax as real {
      if 0.0 <= x1 {
        assert x1.Floor <= x2.Floor;
      } else if x2 < 0.0 {
        assert (-x2).Floor <= (-x1).Floor;
      }
    }
  }

  /** Truncation, not rounding: 0.995 gives 99, not 100. */
  lemma TruncationNotRounding()
    ensures TipPercentage(0.995) == 99
    ensures TipPercentage(0.5) == 50 && TipPercentage(0.0) == 0 && TipPercentage(1.0) == 100
  {
  }

  /** Kotlin's Char.isWhitespace: the space, line and paragraph separators of
      Unicode together with the control characters tab through carriage return
      and the four information separators. */
  predicate IsWhitespace(c: char)
  {
    || '\t' <= c <= '\r'
    || '\U{1C}' <= c <= '\U{1F}'
    || c == ' ' || c == '\U{A0}' || c == '\U{1680}'
    || '\U{2000}' <= c <= '\U{200A}'
    || c == '\U{2028}' || c == '\U{2029}' || c == '\U{202F}' || c == '\U{205F}' || c == '\U{3000}'
  }

  /** The characters a bill is most often made of are not whitespace, while
      the ordinary, no-break and ideographic spaces, tab and the line breaks are. */
  lemma WhitespaceSet()
    ensures forall c :: '0' <= c <= '9' ==> !IsWhitespace(c)
    ensures !IsWhitespace('.') && !IsWhitespace(',') && !IsWhitespace('-')
    ensures IsWhitespace(' ') && IsWhitespace('\t') && IsWhitespace('\n') && IsWhitespace('\r')
    ensures IsWhitespace('\U{A0}') && IsWhitespace('\U{2007}') && IsWhitespace('\U{3000}')
    ensures !IsWhitespace('\U{200B}') && !IsWhitespace('\U{FEFF}')
  {
  }

  predicate AllWhitespace(s: string)
  {
    forall i :: 0 <= i < |s| ==> IsWhitespace(s[i])
  }

  /** Drops the leading whitespace: what remains is empty or starts with a
      non-whitespace character. */
  function TrimStart(s: string): (r: string)
    ensures |r| <= |s|
    ensures r == [] || !IsWhitespace(r[0])
  {
    if s != [] && IsWhitespace(s[0]) then TrimStart(s[1..]) else s
  }

  /** Drops the trailing whitespace: what remains is empty or ends with a
      non-whitespace character, and it starts where the text starts. */
  function TrimEnd(s: string): (r: string)
    ensures |r| <= |s|
    ensures r == [] || !IsWhitespace(r[|r| - 1])
    ensures r == [] || r[0] == s[0]
  {
    if s != [] && IsWhitespace(s[|s| - 1]) then TrimEnd(s[..|s| - 1]) else s
  }

  /** Kotlin's String.trim: the text without its leading and trailing
      whitespace. What remains is empty or starts and ends with a
      non-whitespace character; `TrimKeepsInnerText` shows it is the slice of
      the text between the whitespace it drops. */
  function Trim(s: string): (r: string)
    ensures |r| <= |s|
    ensures r == [] || (!IsWhitespace(r[0]) && !IsWhitespace(r[|r| - 1]))
  {
    TrimEnd(TrimStart(s))
  }

  /** TrimStart keeps a suffix of the text and drops only whitespace. */
  lemma {:induction false} TrimStartDropsWhitespace(s: string)
    ensures TrimStart(s) == s[|s| - |TrimStart(s)|..]
    ensures AllWhitespace(s[..|s| - |TrimStart(s)|])
  {
    if s != [] && IsWhitespace(s[0]) {
      TrimStartDropsWhitespace(s[1..]);
      var r := TrimStart(s[1..]);
      assert s[1..][|s| - 1 - |r|..] == s[|s| - |r|..];
      assert s[..|s| - |r|] == [s[0]] + s[1..][..|s| - 1 - |r|];
    }
  }

  /** TrimEnd keeps a prefix of the text and drops only whitespace. */
  lemma {:induction false} TrimEndDropsWhitespace(s: string)
    ensures TrimEnd(s) == s[..|TrimEnd(s)|]
    ensures AllWhitespace(s[|TrimEnd(s)|..])
  {
    if s != [] && IsWhitespace(s[|s| - 1]) {
      TrimEndDropsWhitespace(s[..|s| - 1]);
      var r := TrimEnd(s[..|s| - 1]);
      assert s[..|s| - 1][..|r|] == s[..|r|];
      assert s[|r|..] == s[..|s| - 1][|r|..] + [s[|s| - 1]];
    }
  }

  /** Trim keeps the slice of the text between its leading and its trailing
      whitespace: everything before and after that slice is whitespace. */
  lemma TrimKeepsInnerText(s: string)
    ensures var k, r := |s| - |TrimStart(s)|, Trim(s);
            && k + |r| <= |s| && r == s[k..k + |r|]
            && AllWhitespace(s[..k]) && AllWhitespace(s[k + |r|..])
  {
    var head := TrimStart(s);
    var k, r := |s| - |head|, TrimEnd(head);
    assert head == s[k..] by { TrimStartDropsWhitespace(s); }
    assert r == head[..|r|] by { TrimEndDropsWhitespace(head); }
    assert r == s[k..k + |r|] by { assert s[k..][..|r|] == s[k..k + |r|]; }
    assert AllWhitespace(s[..k]) by { TrimStartDropsWhitespace(s); }
    assert AllWhitespace(s[k + |r|..]) by {
      TrimEndDropsWhitespace(head);
      assert head[|r|..] == s[k + |r|..];
    }
  }

  /** BillForm's validState: the bill text is non-empty once trimmed. */
  predicate IsValidBill(text: string)
  {
    Trim(text) != []
  }

  lemma AllWhitespaceConcat(a: string, b: string)
    requires AllWhitespace(a) && AllWhitespace(b)
    ensures AllWhitespace(a + b)
  {
    forall i | 0 <= i < |a + b| ensures IsWhitespace((a + b)[i]) {
      if i < |a| {
        assert (a + b)[i] == a[i];
      } else {
        assert (a + b)[i] == b[i - |a|];
      }
    }
  }

  /** The bill text is valid exactly when some character of it is not whitespace. */
  lemma ValidBillHasNonWhitespace(text: string)
    ensures IsValidBill(text) <==> exists i :: 0 <= i < |text| && !IsWhitespace(text[i])
  {
    var head := TrimStart(text);
    var r := TrimEnd(head);
    var k := |text| - |head|;
    TrimStartDropsWhitespace(text);
    TrimEndDropsWhitespace(head);
    if r == [] {
      assert head[|r|..] == head;
      assert text == text[..k] + head;
      AllWhitespaceConcat(text[..k], head);
      assert AllWhitespace(text);
    } else {
      assert r[0] == head[0];
      assert text[k] == head[0];
      assert !IsWhitespace(text[k]);
    }
  }

  /** Trimming twice is trimming once. */
  lemma {:induction false} TrimIsIdempotent(s: string)
    ensures Trim(Trim(s)) == Trim(s)
  {
    var r := Trim(s);
    if r != [] {
      assert TrimStart(r) == r;
      assert TrimEnd(r) == r;
    }
  }

  /** Kotlin's Int.inc(): one more, wrapping from IntMax to IntMin. */
  function KotlinInc(x: int): (r: int)
    requires IntMin <= x <= IntMax
    ensures IntMin <= r <= IntMax
    ensures x < IntMax ==> r == x + 1
    ensures x == IntMax ==> r == IntMin
  {
    if x == IntMax then IntMin else x + 1
  }

  /** One increment past the largest Int leaves the counter below its floor of 1. */
  lemma IncrementAtIntMaxBreaksFloor()
    ensures KotlinInc(IntMax) < 1
  {
  }
}
