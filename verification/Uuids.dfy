/** UUIDs as 128-bit numbers, their text form (section 4 of RFC 9562), and advisory lock keys made from them. */
module Uuids {
  import opened Basics

  type Uuid = n: nat | n < 0x1_0000_0000_0000_0000_0000_0000_0000_0000

  predicate IsHex(c: char) { '0' <= c <= '9' || 'a' <= c <= 'f' }

  function LowerHex(d: nat): (c: char)
    requires d < 16
    ensures IsHex(c)
  {
    if d < 10 then ('0' as int + d) as char else ('a' as int + d - 10) as char
  }

  /** The `k` lowest hexadecimal digits, most significant first. */
  function Hex(n: nat, k: nat): (s: string)
    ensures |s| == k && forall i :: 0 <= i < k ==> IsHex(s[i])
  {
    if k == 0 then "" else Hex(n / 16, k - 1) + [LowerHex(n % 16)]
  }

  function UuidText(u: Uuid): string {
    var h := Hex(u, 32);
    h[..8] + ("-" + (h[8..12] + ("-" + (h[12..16] + ("-" + (h[16..20] + ("-" + h[20..])))))))
  }

  // ---- Python's UUID constructor on ASCII text ----

  /** `s.replace(pattern, "")`. */
  function Remove(s: string, pattern: string): string
    requires pattern != ""
  {
    if s == "" then ""
    else if pattern <= s then Remove(s[|pattern|..], pattern)
    else [s[0]] + Remove(s[1..], pattern)
  }

  predicate IsBrace(c: char) { c == '{' || c == '}' }

  predicate IsSpace(c: char) { c == ' ' || 9 <= c as int <= 13 || 28 <= c as int <= 31 }

  function TrimLeft(s: string, drop: char -> bool): string {
    if s != "" && drop(s[0]) then TrimLeft(s[1..], drop) else s
  }

  function TrimRight(s: string, drop: char -> bool): string {
    if s != "" && drop(s[|s| - 1]) then TrimRight(s[..|s| - 1], drop) else s
  }

  function Trim(s: string, drop: char -> bool): string { TrimRight(TrimLeft(s, drop), drop) }

  function DigitValue(c: char): Option<nat> {
    if '0' <= c <= '9' then Some(c as int - '0' as int)
    else if 'a' <= c <= 'f' then Some(c as int - 'a' as int + 10)
    else if 'A' <= c <= 'F' then Some(c as int - 'A' as int + 10)
    else None
  }

  /** Hexadecimal digits, with single underscores between digits. */
  function DigitsValue(s: string): Option<nat>
    decreases |s|
  {
    if s == "" then None
    else
      var d := DigitValue(s[|s| - 1]);
      if d.None? || |s| == 1 then d
      else
        var rest := DigitsValue(if s[|s| - 2] == '_' then s[..|s| - 2] else s[..|s| - 1]);
        if rest.None? then None else Some(16 * rest.value + d.value)
  }

  /** `int(s, 16)` for text without a minus sign. */
  function IntBase16(s: string): Option<nat> {
    var t := Trim(s, IsSpace);
    var u := if t != "" && t[0] == '+' then t[1..] else t;
    if |u| > 2 && u[0] == '0' && (u[1] == 'x' || u[1] == 'X')
    then DigitsValue(if u[2] == '_' then u[3..] else u[2..])
    else DigitsValue(u)
  }

  /** `UUID(s)`; None stands for ValueError. */
  function ParseUuid(s: string): Option<Uuid> {
    var hex := Remove(Trim(Remove(Remove(s, "urn:"), "uuid:"), IsBrace), "-");
    if |hex| != 32 then None
    else
      var n := IntBase16(hex);
      if n.Some? && n.value < 0x1_0000_0000_0000_0000_0000_0000_0000_0000 then Some(n.value) else None
  }

  // ---- Round trip ----

  lemma RemoveAbsent(s: string, pattern: string)
    requires pattern != "" && pattern[0] !in s
    ensures Remove(s, pattern) == s
  {
    if s != "" {
      assert s[0] in s && forall c :: c in s[1..] ==> c in s;
      RemoveAbsent(s[1..], pattern);
    }
  }

  /** Hyphens vanish between two pieces of digits. */
  lemma {:induction false} RemoveHyphen(a: string, rest: string)
    requires '-' !in a
    ensures Remove(a + ("-" + rest), "-") == a + Remove(rest, "-")
  {
    var s := a + ("-" + rest);
    if a == "" {
      assert s == "-" + rest && s[1..] == rest;
    } else {
      assert a[0] in a && forall c :: c in a[1..] ==> c in a;
      assert s[0] == a[0] && s[1..] == a[1..] + ("-" + rest);
      RemoveHyphen(a[1..], rest);
      assert a == [a[0]] + a[1..];
      assert !("-" <= s);
    }
  }

  lemma TrimNothing(s: string, drop: char -> bool)
    requires forall i :: 0 <= i < |s| ==> !drop(s[i])
    ensures Trim(s, drop) == s
  {
  }

  lemma HexHasNoHyphen(s: string)
    requires forall i :: 0 <= i < |s| ==> IsHex(s[i])
    ensures '-' !in s
  {
    assert forall c :: c in s ==> IsHex(c);
  }

  lemma WithoutHyphens(u: Uuid)
    ensures Remove(UuidText(u), "-") == Hex(u, 32)
  {
    var h := Hex(u, 32);
    var e := h[20..];
    HexHasNoHyphen(h[..8]);
    HexHasNoHyphen(h[8..12]);
    HexHasNoHyphen(h[12..16]);
    HexHasNoHyphen(h[16..20]);
    HexHasNoHyphen(e);
    RemoveAbsent(e, "-");
    RemoveHyphen(h[16..20], e);
    RemoveHyphen(h[12..16], h[16..20] + ("-" + e));
    RemoveHyphen(h[8..12], h[12..16] + ("-" + (h[16..20] + ("-" + e))));
    RemoveHyphen(h[..8], h[8..12] + ("-" + (h[12..16] + ("-" + (h[16..20] + ("-" + e))))));
    assert h[16..20] + e == h[16..];
    assert h[12..16] + h[16..] == h[12..];
    assert h[8..12] + h[12..] == h[8..];
    assert h[..8] + h[8..] == h;
  }

  lemma UuidTextCharacters(u: Uuid)
    ensures forall i :: 0 <= i < |UuidText(u)| ==> IsHex(UuidText(u)[i]) || UuidText(u)[i] == '-'
    ensures |UuidText(u)| == 36
  {
    var h := Hex(u, 32);
    assert forall i :: 0 <= i < 32 ==> IsHex(h[i]);
  }

  function Power16(k: nat): (p: nat)
    ensures p > 0
  {
    if k == 0 then 1 else 16 * Power16(k - 1)
  }

  lemma {:induction false} HexValue(n: nat, k: nat)
    requires k > 0 && n < Power16(k)
    ensures DigitsValue(Hex(n, k)) == Some(n)
  {
    var s := Hex(n, k);
    assert s[k - 1] == LowerHex(n % 16);
    assert DigitValue(s[k - 1]) == Some(n % 16);
    if k > 1 {
      assert n / 16 < Power16(k - 1);
      assert s[..k - 1] == Hex(n / 16, k - 1);
      assert IsHex(s[k - 2]);
      HexValue(n / 16, k - 1);
    } else {
      assert Power16(1) == 16 * Power16(0);
    }
  }

  lemma Power16Is(k: nat)
    ensures k == 32 ==> Power16(k) == 0x1_0000_0000_0000_0000_0000_0000_0000_0000
  {
    assert Power16(4) == 0x1_0000;
    assert Power16(8) == 0x1_0000_0000;
    assert Power16(12) == 0x1_0000_0000_0000;
    assert Power16(16) == 0x1_0000_0000_0000_0000;
    assert Power16(20) == 0x1_0000_0000_0000_0000_0000;
    assert Power16(24) == 0x1_0000_0000_0000_0000_0000_0000;
    assert Power16(28) == 0x1_0000_0000_0000_0000_0000_0000_0000;
  }

  lemma IntBase16OfHex(u: Uuid)
    ensures IntBase16(Hex(u, 32)) == Some(u)
  {
    var h := Hex(u, 32);
    assert IsHex(h[0]) && IsHex(h[1]);
    TrimNothing(h, IsSpace);
    Power16Is(32);
    HexValue(u, 32);
  }

  /** Every UUID is read back from its own text. */
  lemma UuidRoundTrip(u: Uuid)
    ensures ParseUuid(UuidText(u)) == Some(u)
  {
    var t := UuidText(u);
    UuidTextCharacters(u);
    assert forall c :: c in t ==> IsHex(c) || c == '-';
    assert 'u' !in t;
    RemoveAbsent(t, "urn:");
    RemoveAbsent(t, "uuid:");
    TrimNothing(t, IsBrace);
    WithoutHyphens(u);
    IntBase16OfHex(u);
  }

  lemma UuidTextInjective(u: Uuid, v: Uuid)
    ensures UuidText(u) == UuidText(v) <==> u == v
  {
    UuidRoundTrip(u);
    UuidRoundTrip(v);
  }

  // ---- Advisory lock keys ----

  const CAPACITY_LOCK := 7523190401
  const ADMISSION_LOCK := 7523190402

  /** `int.from_bytes(run_id.bytes[:8], "big", signed=True)`. */
  function AdvisoryKey(u: Uuid): int {
    var top := u / 0x1_0000_0000_0000_0000;
    if top >= 0x8000_0000_0000_0000 then top - 0x1_0000_0000_0000_0000 else top
  }

  /** Version 4: the thirteenth hexadecimal digit is 4 (section 5.4 of RFC 9562). */
  predicate IsVersion4(u: Uuid) { u / 0x1000_0000_0000_0000_0000 % 16 == 4 }

  /** A run's lock key fits a 64-bit signed integer and is never one of the two global keys. */
  lemma RunKeysAvoidGlobalLocks(u: Uuid)
    requires IsVersion4(u)
    ensures -0x8000_0000_0000_0000 <= AdvisoryKey(u) < 0x8000_0000_0000_0000
    ensures AdvisoryKey(u) != CAPACITY_LOCK && AdvisoryKey(u) != ADMISSION_LOCK
  {
    var top := u / 0x1_0000_0000_0000_0000;
    var q, r := top / 0x1000, top % 0x1000;
    assert u / 0x1000_0000_0000_0000_0000 == q;
    assert top % 0x1_0000 / 0x1000 == 4;
    assert CAPACITY_LOCK % 0x1_0000 == 0xc681 && ADMISSION_LOCK % 0x1_0000 == 0xc682;
  }
}
