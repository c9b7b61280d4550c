/** Application ids as dotted segments: each mask entry is the width in bits of one segment. */
module AppIdMask {
  import opened Common

  const U64: nat := Pow2(64)

  // ---------------------------------------------------------------- numbers as text

  predicate IsHexDigit(c: char) {
    IsDigit(c) || 'a' <= c <= 'f' || 'A' <= c <= 'F'
  }

  function HexValue(c: char): nat
    requires IsHexDigit(c)
  {
    if IsDigit(c) then (c - '0') as nat else if 'a' <= c then (c - 'a') as nat + 10 else (c - 'A') as nat + 10
  }

  function HexChar(d: nat): (c: char)
    requires d < 16
    ensures IsHexDigit(c) && HexValue(c) == d
    ensures c == "0123456789abcdef"[d]
  {
    if d < 10 then '0' + d as char else 'a' + (d - 10) as char
  }

  function Hexadecimal(n: nat): (s: string)
    ensures |s| > 0
    ensures forall k :: 0 <= k < |s| ==> IsHexDigit(s[k])
  {
    if n < 16 then [HexChar(n)] else Hexadecimal(n / 16) + [HexChar(n % 16)]
  }

  function {:tailrecursion false} HexNumberAt(s: string, i: nat, acc: nat): nat
    decreases |s| - i
  {
    if i < |s| && IsHexDigit(s[i]) then HexNumberAt(s, i + 1, acc * 16 + HexValue(s[i])) else acc
  }

  predicate HexMarkAt(s: string, i: nat) {
    i + 1 < |s| && s[i] == '0' && (s[i + 1] == 'x' || s[i + 1] == 'X')
  }

  /** The number that starts at i, hexadecimal after a leading 0x and else decimal. */
  function IntAt(s: string, i: nat): nat {
    if HexMarkAt(s, i) then HexNumberAt(s, i + 2, 0) else NumberAt(s, i, 0)
  }

  function Spelled(n: nat, hex: bool): (s: string)
    ensures |s| > 0 && s[0] != '.' && !IsSpace(s[0])
  {
    if hex then "0x" + Hexadecimal(n) else Decimal(n)
  }

  lemma {:induction false} ReadHexadecimal(s: string, i: nat, n: nat)
    requires At(s, i, Hexadecimal(n))
    ensures HexNumberAt(s, i, 0) == HexNumberAt(s, i + |Hexadecimal(n)|, n)
    decreases n
  {
    if n < 16 {
      assert s[i + 0] == Hexadecimal(n)[0];
    } else {
      var front, last := Hexadecimal(n / 16), [HexChar(n % 16)];
      AtSplit(s, i, front, last);
      assert s[i + |front| + 0] == last[0];
      ReadHexadecimal(s, i, n / 16);
    }
  }

  /** A spelled number is read back if a dot or the end follows it. */
  lemma ReadSpelled(s: string, i: nat, n: nat, hex: bool)
    requires At(s, i, Spelled(n, hex))
    requires i + |Spelled(n, hex)| < |s| ==> s[i + |Spelled(n, hex)|] == '.'
    ensures IntAt(s, i) == n
  {
    var t := Spelled(n, hex);
    assert s[i + 0] == t[0];
    if hex {
      AtSplit(s, i, "0x", Hexadecimal(n));
      assert s[i + 1] == "0x"[1];
      ReadHexadecimal(s, i + 2, n);
    } else {
      if |t| > 1 {
        assert s[i + 1] == t[1] && IsDigit(t[1]);
      }
      ReadDecimal(s, i, n);
    }
  }

  // ---------------------------------------------------------------- dotted text

  function Join(ids: seq<nat>, hex: bool): string {
    if ids == [] then ""
    else if |ids| == 1 then Spelled(ids[0], hex)
    else Spelled(ids[0], hex) + "." + Join(ids[1..], hex)
  }

  predicate IsSpace(c: char) {
    c == ' ' || c == '\t' || c == '\r' || c == '\n'
  }

  /** The position after the next dot, or the end. */
  function {:tailrecursion false} AfterDot(s: string, i: nat): (j: nat)
    requires i <= |s|
    ensures i <= j <= |s| && (i < |s| ==> i < j)
    decreases |s| - i
  {
    if i == |s| then i else if s[i] == '.' then i + 1 else AfterDot(s, i + 1)
  }

  function {:tailrecursion false} SplitFrom(s: string, i: nat): seq<nat>
    requires i <= |s|
    decreases |s| - i
  {
    if i == |s| then []
    else if IsSpace(s[i]) then SplitFrom(s, i + 1)
    else [IntAt(s, i)] + SplitFrom(s, AfterDot(s, i))
  }

  method SplitIdsByString(s: string) returns (out: seq<nat>)
    ensures out == SplitFrom(s, 0)
  {
    out := [];
    var i := 0;
    while i < |s|
      invariant 0 <= i <= |s|
      invariant SplitFrom(s, 0) == out + SplitFrom(s, i)
    {
      if IsSpace(s[i]) {
        i := i + 1;
        continue;
      }
      out := out + [IntAt(s, i)];
      i := SkipSegment(s, i);
    }
  }

  method SkipSegment(s: string, start: nat) returns (i: nat)
    requires start <= |s|
    ensures i == AfterDot(s, start)
  {
    i := start;
    while i < |s| && s[i] != '.'
      invariant start <= i <= |s|
      invariant AfterDot(s, start) == AfterDot(s, i)
    {
      i := i + 1;
    }
    if i < |s| {
      i := i + 1;
    }
  }

  lemma {:induction false} AfterDigits(s: string, i: nat, t: string)
    requires At(s, i, t) && forall k :: 0 <= k < |t| ==> t[k] != '.'
    ensures AfterDot(s, i) == AfterDot(s, i + |t|)
    decreases |t|
  {
    if t != "" {
      assert t == [t[0]] + t[1..];
      AtSplit(s, i, [t[0]], t[1..]);
      assert s[i + 0] == t[0];
      AfterDigits(s, i + 1, t[1..]);
    }
  }

  /** The first number of a dotted text. */
  lemma SplitFirst(s: string, i: nat, n: nat, hex: bool)
    requires At(s, i, Spelled(n, hex))
    requires i + |Spelled(n, hex)| < |s| ==> s[i + |Spelled(n, hex)|] == '.'
    ensures SplitFrom(s, i) == [n] + SplitFrom(s, if i + |Spelled(n, hex)| < |s| then i + |Spelled(n, hex)| + 1 else |s|)
  {
    var first := Spelled(n, hex);
    ReadSpelled(s, i, n, hex);
    AfterDigits(s, i, first);
    assert s[i + 0] == first[0];
  }

  lemma JoinMore(ids: seq<nat>, hex: bool)
    requires |ids| > 1
    ensures Join(ids, hex) == Spelled(ids[0], hex) + "." + Join(ids[1..], hex)
    ensures Join(ids[1..], hex) != ""
  {
    hide Spelled;
    assert Spelled(ids[1], hex) != "";
  }

  lemma AtDotted(s: string, i: nat, first: string, rest: string)
    requires At(s, i, first + "." + rest)
    ensures At(s, i, first) && i + |first| < |s| && s[i + |first|] == '.' && At(s, i + |first| + 1, rest)
  {
    AtSplit(s, i, first + ".", rest);
    AtSplit(s, i, first, ".");
    assert s[i + |first| + 0] == "."[0];
  }

  lemma SplitMore(s: string, i: nat, ids: seq<nat>, hex: bool)
    requires |ids| > 1 && At(s, i, Join(ids, hex))
    ensures var next := i + |Spelled(ids[0], hex)| + 1;
      && next < |s| && At(s, next, Join(ids[1..], hex)) && SplitFrom(s, i) == [ids[0]] + SplitFrom(s, next)
      && i + |Join(ids, hex)| == next + |Join(ids[1..], hex)|
  {
    hide Spelled, SplitFrom, Join, At;
    JoinMore(ids, hex);
    AtDotted(s, i, Spelled(ids[0], hex), Join(ids[1..], hex));
    AtLength(s, i + |Spelled(ids[0], hex)| + 1, Join(ids[1..], hex));
    SplitFirst(s, i, ids[0], hex);
  }

  lemma AtLength(s: string, i: nat, t: string)
    requires At(s, i, t)
    ensures i + |t| <= |s|
  {
  }

  /** Splitting dotted text gives back its numbers. */
  lemma {:induction false} SplitJoin(s: string, i: nat, ids: seq<nat>, hex: bool)
    requires At(s, i, Join(ids, hex)) && i + |Join(ids, hex)| == |s|
    ensures SplitFrom(s, i) == ids
    decreases |ids|
  {
    if |ids| == 1 {
      hide Spelled;
      SplitFirst(s, i, ids[0], hex);
    } else if |ids| > 1 {
      hide Spelled, SplitFrom, Join, At;
      SplitMore(s, i, ids, hex);
      SplitJoin(s, i + |Spelled(ids[0], hex)| + 1, ids[1..], hex);
      assert [ids[0]] + ids[1..] == ids;
    }
  }

  // ---------------------------------------------------------------- ids and segments

  function Total(masks: seq<nat>): nat {
    if masks == [] then 0 else Total(masks[..|masks| - 1]) + masks[|masks| - 1]
  }

  /** x << m on 64 bits. */
  function Shl(x: nat, m: nat): nat {
    Doubled(x, m) % U64
  }

  /** x >> m. */
  function Shr(x: nat, m: nat): nat {
    if m == 0 then x else Shr(x / 2, m - 1)
  }

  /** x & ((1 << m) - 1). */
  function Low(x: nat, m: nat): nat {
    if m == 0 then 0 else x % 2 + 2 * Low(x / 2, m - 1)
  }

  /** The segments of an id: the last mask takes the low bits, and so on upwards. */
  function Segments(id: nat, masks: seq<nat>): (ids: seq<nat>)
    ensures |ids| == |masks|
    decreases |masks|
  {
    if masks == [] then []
    else
      var m := masks[|masks| - 1];
      Segments(Shr(id, m), masks[..|masks| - 1]) + [Low(id, m)]
  }

  /** The id put together from segments, shifting each one in and keeping its low bits; the
      shifted value has zeros there, so or-ing is adding. Surplus segments are ignored. */
  function Pack(ids: seq<nat>, masks: seq<nat>, n: nat): nat
    requires n <= |ids| && n <= |masks|
  {
    if n == 0 then 0
    else Shl(Pack(ids, masks, n - 1), masks[n - 1]) + Low(ids[n - 1], masks[n - 1])
  }

  function IdOf(text: string, masks: seq<nat>): nat {
    if text == "" then 0
    else if masks == [] || '.' !in text then IntAt(text, 0)
    else
      var ids := SplitFrom(text, 0);
      Pack(ids, masks, Min(|ids|, |masks|))
  }

  method ConvertAppIdByString(text: string, masks: seq<nat>) returns (id: nat)
    ensures id == IdOf(text, masks)
  {
    if text == "" {
      return 0;
    }
    var isNumber := true;
    if masks != [] {
      var k := 0;
      while k < |text| && isNumber
        invariant 0 <= k <= |text|
        invariant isNumber <==> '.' !in text[..k]
      {
        assert text[..k + 1] == text[..k] + [text[k]];
        if text[k] == '.' {
          isNumber := false;
        }
        k := k + 1;
      }
      assert isNumber ==> text[..k] == text;
    }
    if isNumber {
      return IntAt(text, 0);
    }
    var ids := SplitIdsByString(text);
    id := 0;
    var i := 0;
    while i < |ids| && i < |masks|
      invariant 0 <= i <= |ids| && i <= |masks|
      invariant id == Pack(ids, masks, i)
    {
      id := Shl(id, masks[i]);
      id := id + Low(ids[i], masks[i]);
      i := i + 1;
    }
  }

  method SplitBits(id: nat, masks: seq<nat>) returns (ids: seq<nat>)
    ensures ids == Segments(id, masks)
  {
    ids := [];
    var rest: nat := id;
    var i := |masks|;
    assert masks[..|masks|] == masks;
    while i > 0
      invariant 0 <= i <= |masks|
      invariant Segments(id, masks) == Segments(rest, masks[..i]) + ids
    {
      var m := masks[i - 1];
      assert masks[..i][..i - 1] == masks[..i - 1];
      ids := [Low(rest, m)] + ids;
      rest := Shr(rest, m);
      i := i - 1;
    }
  }

  method ConvertAppIdToString(id: nat, masks: seq<nat>, hex: bool) returns (text: string)
    ensures text == Join(Segments(id, masks), hex)
  {
    hide Segments, Join;
    var ids := SplitBits(id, masks);
    text := "";
    JoinNone(hex);
    var i := 0;
    while i < |ids|
      invariant 0 <= i <= |ids|
      invariant text == Join(ids[..i], hex)
    {
      JoinAppend(ids[..i], ids[i], hex);
      assert ids[..i + 1] == ids[..i] + [ids[i]];
      if i != 0 {
        text := text + ".";
      }
      if hex {
        text := text + "0x";
        text := text + Hexadecimal(ids[i]);
      } else {
        text := text + Decimal(ids[i]);
      }
      assert text == Join(ids[..i + 1], hex);
      i := i + 1;
    }
    assert ids[..|ids|] == ids;
  }

  lemma JoinNone(hex: bool)
    ensures Join([], hex) == ""
  {
  }

  lemma {:induction false} JoinAppend(ids: seq<nat>, x: nat, hex: bool)
    ensures Join(ids + [x], hex) == if ids == [] then Spelled(x, hex) else Join(ids, hex) + "." + Spelled(x, hex)
    decreases |ids|
  {
    if |ids| == 1 {
      assert (ids + [x])[1..] == [x];
    } else if |ids| > 1 {
      assert (ids + [x])[1..] == ids[1..] + [x];
      JoinAppend(ids[1..], x, hex);
    }
  }

  // ---------------------------------------------------------------- round trips

  /** Masks the shifts are defined for: no width reaches 64, and all fit one id. */
  ghost predicate Shiftable(masks: seq<nat>) {
    masks != [] && Total(masks) <= 64 && forall i :: 0 <= i < |masks| ==> masks[i] < 64
  }

  ghost predicate InRange(ids: seq<nat>, masks: seq<nat>) {
    |ids| == |masks| && forall i :: 0 <= i < |ids| ==> ids[i] < Pow2(masks[i])
  }

  lemma {:induction false} HighAndLow(x: nat, m: nat)
    ensures Doubled(Shr(x, m), m) + Low(x, m) == x
    ensures Low(x, m) < Pow2(m)
    decreases m
  {
    if m > 0 {
      HighAndLow(x / 2, m - 1);
    }
  }

  lemma {:induction false} LowOfShifted(y: nat, m: nat, r: nat)
    requires r < Pow2(m)
    ensures Shr(Doubled(y, m) + r, m) == y && Low(Doubled(y, m) + r, m) == r
    decreases m
  {
    if m > 0 {
      var d := Doubled(y, m - 1);
      assert Doubled(y, m) + r == 2 * d + r;
      assert (2 * d + r) / 2 == d + r / 2 && (2 * d + r) % 2 == r % 2;
      LowOfShifted(y, m - 1, r / 2);
    }
  }

  lemma LowOfSmall(r: nat, m: nat)
    requires r < Pow2(m)
    ensures Low(r, m) == r
  {
    DoubledZero(m);
    LowOfShifted(0, m, r);
  }

  lemma {:induction false} DoubledZero(m: nat)
    ensures Doubled(0, m) == 0
    decreases m
  {
    if m > 0 {
      DoubledZero(m - 1);
    }
  }

  lemma {:induction false} ShiftedBound(y: nat, t: nat, m: nat, r: nat)
    requires y < Pow2(t) && r < Pow2(m)
    ensures Doubled(y, m) + r < Pow2(t + m)
    decreases m
  {
    if m > 0 {
      ShiftedBound(y, t, m - 1, r / 2);
    }
  }

  lemma {:induction false} ShrBound(x: nat, t: nat, m: nat)
    requires x < Pow2(t + m)
    ensures Shr(x, m) < Pow2(t)
    decreases m
  {
    if m > 0 {
      ShrBound(x / 2, t, m - 1);
    }
  }

  lemma {:induction false} Pow2Mono(a: nat, b: nat)
    requires a <= b
    ensures Pow2(a) <= Pow2(b)
    decreases b
  {
    if a < b {
      Pow2Mono(a, b - 1);
    }
  }

  lemma ShlFits(x: nat, t: nat, m: nat)
    requires x < Pow2(t) && t + m <= 64
    ensures Shl(x, m) == Doubled(x, m)
  {
    ShiftedBound(x, t, m, 0);
    Pow2Mono(t + m, 64);
    SmallMod(Doubled(x, m), U64);
  }

  lemma SmallMod(x: nat, u: nat)
    requires x < u
    ensures x % u == x
  {
  }

  lemma {:induction false} TotalPrefix(masks: seq<nat>, n: nat)
    requires n <= |masks|
    ensures Total(masks[..n]) <= Total(masks)
    ensures n > 0 ==> Total(masks[..n]) == Total(masks[..n - 1]) + masks[n - 1]
    decreases |masks|
  {
    if n < |masks| {
      assert masks[..|masks| - 1][..n] == masks[..n];
      TotalPrefix(masks[..|masks| - 1], n);
    } else {
      assert masks[..n] == masks;
    }
    if n > 0 {
      assert masks[..n][..n - 1] == masks[..n - 1];
    }
  }

  /** Packing the segments of an id gives the id back. */
  lemma {:induction false} PackSegments(id: nat, masks: seq<nat>)
    requires Total(masks) <= 64 && id < Pow2(Total(masks))
    ensures Pack(Segments(id, masks), masks, |masks|) == id
    ensures InRange(Segments(id, masks), masks)
    decreases |masks|
  {
    if masks != [] {
      var n := |masks| - 1;
      var m, front := masks[n], masks[..n];
      var ids := Segments(id, masks);
      ShrBound(id, Total(front), m);
      PackSegments(Shr(id, m), front);
      PackPrefix(ids, masks, n);
      assert ids[..n] == Segments(Shr(id, m), front);
      HighAndLow(id, m);
      ShlFits(Shr(id, m), Total(front), m);
      LowOfSmall(Low(id, m), m);
    }
  }

  lemma {:induction false} PackPrefix(ids: seq<nat>, masks: seq<nat>, n: nat)
    requires n <= |ids| && n <= |masks|
    ensures Pack(ids, masks, n) == Pack(ids[..n], masks[..n], n)
    decreases n
  {
    if n > 0 {
      PackPrefix(ids, masks, n - 1);
      PackPrefix(ids[..n], masks[..n], n - 1);
      assert ids[..n][..n - 1] == ids[..n - 1] && masks[..n][..n - 1] == masks[..n - 1];
    }
  }

  /** Taking a packed id apart gives its segments back. */
  lemma {:induction false} SegmentsPack(ids: seq<nat>, masks: seq<nat>)
    requires InRange(ids, masks) && Total(masks) <= 64
    ensures Pack(ids, masks, |masks|) < Pow2(Total(masks))
    ensures Segments(Pack(ids, masks, |masks|), masks) == ids
    decreases |masks|
  {
    if masks != [] {
      var n := |masks| - 1;
      var m, front := masks[n], masks[..n];
      SegmentsPack(ids[..n], front);
      PackPrefix(ids, masks, n);
      var high := Pack(ids, masks, n);
      ShlFits(high, Total(front), m);
      LowOfSmall(ids[n], m);
      LowOfShifted(high, m, ids[n]);
      ShiftedBound(high, Total(front), m, ids[n]);
    }
  }

  // ---------------------------------------------------------------- places

  lemma {:induction false} ShrTwice(x: nat, a: nat, b: nat)
    ensures Shr(Shr(x, a), b) == Shr(x, a + b)
    decreases a
  {
    if a > 0 {
      ShrTwice(x / 2, a - 1, b);
    }
  }

  lemma {:induction false} SegmentShifted(id: nat, masks: seq<nat>, k: nat)
    requires k < |masks|
    ensures Segments(id, masks)[k] == Low(Shr(id, Total(masks[k + 1..])), masks[k])
    decreases |masks|
  {
    var n := |masks| - 1;
    var m, front := masks[n], masks[..n];
    if k == n {
      assert masks[k + 1..] == [];
    } else {
      SegmentShifted(Shr(id, m), front, k);
      assert masks[k + 1..][..n - k - 1] == front[k + 1..];
      assert Total(masks[k + 1..]) == Total(front[k + 1..]) + m;
      ShrTwice(id, m, Total(front[k + 1..]));
    }
  }

  /** A segment of an id is the number in the bits that its mask gives it, above those of all later masks: what is
      above it is a multiple of both, and what is below it is less than the later ones can hold. */
  lemma SegmentPlace(id: nat, masks: seq<nat>, k: nat) returns (high: nat, low: nat)
    requires k < |masks|
    ensures var seg, m, t := Segments(id, masks)[k], masks[k], Total(masks[k + 1..]);
      id == (high * Pow2(m) + seg) * Pow2(t) + low && seg < Pow2(m) && low < Pow2(t)
  {
    var m, t := masks[k], Total(masks[k + 1..]);
    var x := Shr(id, t);
    high, low := Shr(x, m), Low(id, t);
    SegmentShifted(id, masks, k);
    HighAndLow(id, t);
    HighAndLow(x, m);
    DoubledIsProduct(x, t);
    DoubledIsProduct(high, m);
  }

  /** What fits of each number: its low bits. */
  function Lows(ids: seq<nat>, masks: seq<nat>): (lows: seq<nat>)
    requires |masks| <= |ids|
    ensures |lows| == |masks|
  {
    seq(|masks|, k requires 0 <= k < |masks| => Low(ids[k], masks[k]))
  }

  lemma {:induction false} PackLows(ids: seq<nat>, masks: seq<nat>, n: nat)
    requires n <= |masks| <= |ids|
    ensures Pack(ids, masks, n) == Pack(Lows(ids, masks), masks, n)
    decreases n
  {
    if n > 0 {
      PackLows(ids, masks, n - 1);
      HighAndLow(ids[n - 1], masks[n - 1]);
      LowOfSmall(Low(ids[n - 1], masks[n - 1]), masks[n - 1]);
    }
  }

  /** The id that dotted text spells has of each of its numbers the bits that fit in the bits of its mask, and
      nothing above them all. Numbers for which there is no mask are ignored. */
  lemma TextPlace(ids: seq<nat>, masks: seq<nat>, hex: bool, k: nat) returns (high: nat, low: nat)
    requires Shiftable(masks) && k < |masks| <= |ids| && 1 < |ids|
    ensures var m, t := masks[k], Total(masks[k + 1..]);
      IdOf(Join(ids, hex), masks) == (high * Pow2(m) + Low(ids[k], m)) * Pow2(t) + low && low < Pow2(t)
    ensures IdOf(Join(ids, hex), masks) < Pow2(Total(masks))
    ensures ids[k] < Pow2(masks[k]) ==> Low(ids[k], masks[k]) == ids[k]
  {
    hide Join, Segments, SplitFrom, Total, Low;
    var text, lows := Join(ids, hex), Lows(ids, masks);
    DotInJoin(ids, hex);
    SplitJoin(text, 0, ids, hex);
    PackLows(ids, masks, |masks|);
    LowsFit(ids, masks);
    SegmentsPack(lows, masks);
    high, low := SegmentPlace(IdOf(text, masks), masks, k);
    if ids[k] < Pow2(masks[k]) {
      LowOfSmall(ids[k], masks[k]);
    }
  }

  lemma LowsFit(ids: seq<nat>, masks: seq<nat>)
    requires |masks| <= |ids|
    ensures InRange(Lows(ids, masks), masks)
  {
    forall k | 0 <= k < |masks| ensures Lows(ids, masks)[k] < Pow2(masks[k]) {
      HighAndLow(ids[k], masks[k]);
    }
  }

  /** Text without a dot is a plain number, whatever the masks. */
  lemma PlainNumber(n: nat, hex: bool, masks: seq<nat>)
    ensures IdOf(Spelled(n, hex), masks) == n
  {
    DotInJoin([n], hex);
    ReadSpelled(Spelled(n, hex), 0, n, hex);
  }

  lemma {:induction false} DotInJoin(ids: seq<nat>, hex: bool)
    requires ids != []
    ensures '.' in Join(ids, hex) <==> |ids| > 1
    ensures Join(ids, hex) != ""
  {
    if |ids| > 1 {
      var first := Spelled(ids[0], hex);
      assert Join(ids, hex)[|first|] == '.';
    }
  }

  /** Printing an id as dotted segments and reading it back gives the id. */
  lemma IdRoundTrip(id: nat, masks: seq<nat>, hex: bool)
    requires Shiftable(masks) && id < Pow2(Total(masks))
    ensures IdOf(Join(Segments(id, masks), hex), masks) == id
  {
    PackSegments(id, masks);
    ReadBack(Segments(id, masks), masks, hex);
  }

  /** Dotted text with segments in range survives reading and printing. */
  lemma TextRoundTrip(ids: seq<nat>, masks: seq<nat>, hex: bool)
    requires Shiftable(masks) && InRange(ids, masks)
    ensures Join(Segments(IdOf(Join(ids, hex), masks), masks), hex) == Join(ids, hex)
  {
    SegmentsPack(ids, masks);
    ReadBack(ids, masks, hex);
  }

  lemma ReadBack(ids: seq<nat>, masks: seq<nat>, hex: bool)
    requires masks != [] && Total(masks) <= 64 && InRange(ids, masks)
    ensures IdOf(Join(ids, hex), masks) == Pack(ids, masks, |masks|)
  {
    var text := Join(ids, hex);
    DotInJoin(ids, hex);
    if |ids| == 1 {
      ReadSpelled(text, 0, ids[0], hex);
      LowOfSmall(ids[0], masks[0]);
      DoubledZero(masks[0]);
      assert Pack(ids, masks, 1) == Shl(0, masks[0]) + Low(ids[0], masks[0]);
    } else {
      SplitJoin(text, 0, ids, hex);
    }
  }
}
