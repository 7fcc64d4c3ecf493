/** JSON values and the compact, key-sorted text `json.dumps` gives them (section 7 of RFC 8259). */
module JsonText {
  import opened Basics

  datatype Json =
    | JNull
    | JBool(flag: bool)
    | JInt(number: int)
    | JString(text: string)
    | JArray(items: seq<Json>)
    | JObject(fields: map<string, Json>)

  // Every writer below takes the text that follows, so that a document is built by
  // putting short prefixes in front of a rest and is read by taking them off again.

  lemma Cancel(p: string, s: string, t: string)
    requires p + s == p + t
    ensures s == t
  {
    assert s == (p + s)[|p|..] == (p + t)[|p|..] == t;
  }

  // ---- Strings ----

  function HexDigit(d: nat): (c: char)
    requires d < 16
  {
    "0123456789abcdef"[d]
  }

  /** One character inside quotes; only quote, backslash and control characters are escaped. */
  function Escape(c: char): string {
    if c == '\"' then "\\\""
    else if c == '\\' then "\\\\"
    else if c == '\n' then "\\n"
    else if c == '\r' then "\\r"
    else if c == '\t' then "\\t"
    else if c as int == 12 then "\\f"
    else if c as int == 8 then "\\b"
    else if c as int < 32 then "\\u00" + [HexDigit(c as int / 16), HexDigit(c as int % 16)]
    else [c]
  }

  /** The characters after the opening quote, the closing quote and what follows it. */
  function StringBody(s: string, rest: string): string {
    if s == "" then "\"" + rest else Escape(s[0]) + StringBody(s[1..], rest)
  }

  /** The value of a hexadecimal digit in either case; 16 for any other character. */
  function HexNumber(c: char): nat {
    if '0' <= c <= '9' then c as int - '0' as int
    else if 'a' <= c <= 'f' then c as int - 'a' as int + 10
    else if 'A' <= c <= 'F' then c as int - 'A' as int + 10
    else 16
  }

  /** The character two-character escapes stand for. */
  function ShortEscape(c: char): Option<char> {
    if c == '\"' || c == '\\' || c == '/' then Some(c)
    else if c == 'b' then Some(8 as char)
    else if c == 'f' then Some(12 as char)
    else if c == 'n' then Some('\n')
    else if c == 'r' then Some('\r')
    else if c == 't' then Some('\t')
    else None
  }

  /** The character a four-digit escape stands for, surrogates aside. */
  function LongEscape(t: string): Option<char>
    requires |t| >= 4
  {
    var a, b, c, d := HexNumber(t[0]), HexNumber(t[1]), HexNumber(t[2]), HexNumber(t[3]);
    var code := ((a * 16 + b) * 16 + c) * 16 + d;
    if a < 16 && b < 16 && c < 16 && d < 16 && !(0xd800 <= code < 0xe000) then Some(code as char) else None
  }

  /** A reader of string tokens after the opening quote: the characters, and what follows the closing quote. */
  function ReadString(t: string): Option<(string, string)>
    decreases |t|
  {
    if t == "" || t[0] as int < 32 then None
    else if t[0] == '\"' then Some(("", t[1..]))
    else if t[0] != '\\' then Prefixed(t[0], ReadString(t[1..]))
    else if |t| < 2 then None
    else if t[1] == 'u' then
      if |t| < 6 || LongEscape(t[2..]).None? then None else Prefixed(LongEscape(t[2..]).value, ReadString(t[6..]))
    else if ShortEscape(t[1]).None? then None
    else Prefixed(ShortEscape(t[1]).value, ReadString(t[2..]))
  }

  function Prefixed(c: char, read: Option<(string, string)>): Option<(string, string)> {
    if read.Some? then Some(([c] + read.value.0, read.value.1)) else None
  }

  lemma EscapeIsRead(c: char, t: string)
    ensures ReadString(Escape(c) + t) == Prefixed(c, ReadString(t))
  {
    var u := Escape(c) + t;
    if |Escape(c)| == 1 {
      assert u[1..] == t;
    } else if |Escape(c)| == 2 {
      assert u[0] == Escape(c)[0] && u[1] == Escape(c)[1] && u[2..] == t;
    } else {
      LongEscapeIsRead(c, u, t);
    }
  }

  lemma LongEscapeIsRead(c: char, u: string, t: string)
    requires c as int < 32 && u == "\\u00" + [HexDigit(c as int / 16), HexDigit(c as int % 16)] + t
    ensures ReadString(u) == Prefixed(c, ReadString(t))
  {
    var h, l := c as int / 16, c as int % 16;
    assert u[0] == '\\' && u[1] == 'u' && u[2] == '0' && u[3] == '0' && u[4] == HexDigit(h) && u[5] == HexDigit(l) && u[6..] == t;
    LongEscapeOf(h, l, u[2..]);
  }

  lemma LongEscapeOf(h: nat, l: nat, t: string)
    requires h < 2 && l < 16 && |t| >= 4 && t[0] == '0' && t[1] == '0' && t[2] == HexDigit(h) && t[3] == HexDigit(l)
    ensures LongEscape(t) == Some((h * 16 + l) as char)
  {
    HexDigitNumber(h);
    HexDigitNumber(l);
  }

  lemma HexDigitNumber(d: nat)
    requires d < 16
    ensures HexNumber(HexDigit(d)) == d
  {
  }

  /** Every string is read back from its token, whatever its characters, by a reader of section 7 of RFC 8259. */
  lemma {:induction false} StringRoundTrip(s: string, rest: string)
    ensures ReadString(StringBody(s, rest)) == Some((s, rest))
  {
    if s != "" {
      StringRoundTrip(s[1..], rest);
      EscapeIsRead(s[0], StringBody(s[1..], rest));
      assert [s[0]] + s[1..] == s;
    } else {
      assert ("\"" + rest)[1..] == rest;
    }
  }

  lemma HexDigitInjective(a: nat, b: nat)
    requires a < 16 && b < 16 && HexDigit(a) == HexDigit(b)
    ensures a == b
  {
  }

  lemma EscapeReadsOnce(c: char, d: char, s: string, t: string)
    requires Escape(c) + s == Escape(d) + t
    ensures c == d && s == t
  {
    var u := Escape(c) + s;
    assert u[0] == Escape(c)[0] == Escape(d)[0];
    if Escape(c)[0] == '\\' {
      assert u[1] == Escape(c)[1] == Escape(d)[1];
      if Escape(c)[1] == 'u' {
        assert u[4] == Escape(c)[4] == Escape(d)[4];
        assert u[5] == Escape(c)[5] == Escape(d)[5];
        HexDigitInjective(c as int / 16, d as int / 16);
        HexDigitInjective(c as int % 16, d as int % 16);
      }
    }
    assert c == d;
    Cancel(Escape(c), s, t);
  }

  lemma BodyOpens(s: string, rest: string)
    ensures StringBody(s, rest) != "" && (StringBody(s, rest)[0] == '\"' <==> s == "")
  {
    if s != "" { assert Escape(s[0])[0] != '\"'; }
  }

  lemma {:induction false} StringReadsOnce(a: string, b: string, s: string, t: string)
    requires StringBody(a, s) == StringBody(b, t)
    ensures a == b && s == t
  {
    BodyOpens(a, s);
    BodyOpens(b, t);
    if a == "" {
      Cancel("\"", s, t);
    } else {
      EscapeReadsOnce(a[0], b[0], StringBody(a[1..], s), StringBody(b[1..], t));
      StringReadsOnce(a[1..], b[1..], s, t);
      assert a == [a[0]] + a[1..] == [b[0]] + b[1..] == b;
    }
  }

  // ---- Integers ----

  predicate IsDigit(c: char) { '0' <= c <= '9' }

  function DecimalDigit(d: nat): (c: char)
    requires d < 10
    ensures IsDigit(c) && c as int == '0' as int + d
  {
    "0123456789"[d]
  }

  function Decimal(n: nat): (s: string)
    ensures s != "" && forall i :: 0 <= i < |s| ==> IsDigit(s[i])
  {
    if n < 10 then [DecimalDigit(n)] else Decimal(n / 10) + [DecimalDigit(n % 10)]
  }

  function IntText(n: int, rest: string): (s: string)
    ensures s != "" && (if n < 0 then s[0] == '-' else IsDigit(s[0]))
  {
    if n < 0 then "-" + (Decimal(-n) + rest) else Decimal(n) + rest
  }

  /** What follows a value in a document never continues a number. */
  predicate Delimited(s: string) { s != "" ==> !IsDigit(s[0]) }

  lemma {:induction false} DecimalInjective(m: nat, n: nat)
    requires Decimal(m) == Decimal(n)
    ensures m == n
  {
    var s := Decimal(m);
    assert s[|s| - 1] == DecimalDigit(m % 10) && s[|s| - 1] == DecimalDigit(n % 10);
    if m >= 10 && n >= 10 {
      assert Decimal(m / 10) == s[..|s| - 1] == Decimal(n / 10);
      DecimalInjective(m / 10, n / 10);
    }
  }

  lemma DecimalReadsOnce(m: nat, n: nat, s: string, t: string)
    requires Decimal(m) + s == Decimal(n) + t && Delimited(s) && Delimited(t)
    ensures m == n && s == t
  {
    var u := Decimal(m) + s;
    var v := Decimal(n) + t;
    var i, j := |Decimal(m)|, |Decimal(n)|;
    assert forall k :: 0 <= k < i ==> u[k] == Decimal(m)[k];
    assert forall k :: 0 <= k < j ==> v[k] == Decimal(n)[k];
    assert i < |u| ==> u[i] == s[0];
    assert j < |v| ==> v[j] == t[0];
    assert i == j;
    assert Decimal(m) == u[..i] == v[..j] == Decimal(n);
    Cancel(Decimal(m), s, t);
    DecimalInjective(m, n);
  }

  lemma IntReadsOnce(m: int, n: int, s: string, t: string)
    requires IntText(m, s) == IntText(n, t) && Delimited(s) && Delimited(t)
    ensures m == n && s == t
  {
    if m < 0 {
      Cancel("-", Decimal(-m) + s, Decimal(-n) + t);
      DecimalReadsOnce(-m, -n, s, t);
    } else {
      DecimalReadsOnce(m, n, s, t);
    }
  }

  // ---- Documents ----

  function Separator(i: nat): string { if i == 0 then "" else "," }

  /** The text of a value, then `rest`. */
  ghost function Write(j: Json, rest: string): string
    decreases j, 2, 0
  {
    match j
    case JNull => "null" + rest
    case JBool(b) => (if b then "true" else "false") + rest
    case JInt(n) => IntText(n, rest)
    case JString(s) => "\"" + StringBody(s, rest)
    case JArray(_) => "[" + Items(j, 0, rest)
    case JObject(fields) => SortedLists(fields.Keys); "{" + Members(j, Sorted(fields.Keys), 0, rest)
  }

  /** The items from index `i` on, the closing bracket, then `rest`. */
  ghost function Items(j: Json, i: nat, rest: string): string
    requires j.JArray? && i <= |j.items|
    decreases j, 1, |j.items| - i
  {
    if i == |j.items| then "]" + rest
    else Separator(i) + Write(j.items[i], Items(j, i + 1, rest))
  }

  /** The members named by `keys` from index `i` on, the closing brace, then `rest`. */
  ghost function Members(j: Json, keys: seq<string>, i: nat, rest: string): string
    requires j.JObject? && i <= |keys| && forall k :: k in keys ==> k in j.fields
    decreases j, 1, |keys| - i
  {
    if i == |keys| then "}" + rest
    else Separator(i) + Member(j, keys[i], Members(j, keys, i + 1, rest))
  }

  ghost function Member(j: Json, key: string, rest: string): string
    requires j.JObject? && key in j.fields
    decreases j, 0
  {
    "\"" + StringBody(key, ":" + Write(j.fields[key], rest))
  }

  /** `json.dumps(value, sort_keys=True, separators=(",", ":"), ensure_ascii=False)`. */
  ghost function Text(j: Json): string { Write(j, "") }

  /** The members of an object are written in the order of their names, each once. */
  lemma KeysInOrder(fields: map<string, Json>, keys: seq<string>, rest: string)
    requires Increasing(keys) && forall k :: k in keys <==> k in fields
    ensures Write(JObject(fields), rest) == "{" + Members(JObject(fields), keys, 0, rest)
  {
    SortedLists(fields.Keys);
    IncreasingUnique(Sorted(fields.Keys), keys);
  }

  /** The first character of a value tells its kind; it never closes or separates. */
  lemma WriteOpens(j: Json, rest: string)
    ensures Write(j, rest) != ""
    ensures var c := Write(j, rest)[0];
            match j
            case JNull => c == 'n'
            case JBool(b) => c == (if b then 't' else 'f')
            case JInt(_) => c == '-' || IsDigit(c)
            case JString(_) => c == '\"'
            case JArray(_) => c == '['
            case JObject(_) => c == '{'
  {
  }

  lemma ItemsOpen(j: Json, i: nat, rest: string)
    requires j.JArray? && i <= |j.items|
    ensures Items(j, i, rest) != "" && (Items(j, i, rest)[0] == ']' <==> i == |j.items|)
    ensures i > 0 ==> Delimited(Items(j, i, rest))
  {
    if i < |j.items| { WriteOpens(j.items[i], Items(j, i + 1, rest)); }
  }

  lemma MembersOpen(j: Json, keys: seq<string>, i: nat, rest: string)
    requires j.JObject? && i <= |keys| && forall k :: k in keys ==> k in j.fields
    ensures Members(j, keys, i, rest) != "" && (Members(j, keys, i, rest)[0] == '}' <==> i == |keys|)
    ensures Delimited(Members(j, keys, i, rest))
  {
  }

  /** A value followed by anything that does not continue a number can be read in one way only. */
  lemma {:induction false} ReadsOnce(a: Json, b: Json, s: string, t: string)
    requires Write(a, s) == Write(b, t) && Delimited(s) && Delimited(t)
    ensures a == b && s == t
    decreases a, 2, 0
  {
    WriteOpens(a, s);
    WriteOpens(b, t);
    match a {
      case JNull => Cancel("null", s, t);
      case JBool(f) => Cancel(if f then "true" else "false", s, t);
      case JInt(n) => IntReadsOnce(n, b.number, s, t);
      case JString(x) =>
        Cancel("\"", StringBody(x, s), StringBody(b.text, t));
        StringReadsOnce(x, b.text, s, t);
      case JArray(items) =>
        Cancel("[", Items(a, 0, s), Items(b, 0, t));
        ItemsReadOnce(a, b, 0, s, t);
      case JObject(fields) =>
        ObjectReadsOnce(a, b, s, t);
    }
  }

  lemma {:induction false} ObjectReadsOnce(a: Json, b: Json, s: string, t: string)
    requires a.JObject? && b.JObject? && Write(a, s) == Write(b, t) && Delimited(s) && Delimited(t)
    ensures a == b && s == t
    decreases a, 1, |Sorted(a.fields.Keys)| + 1
  {
    SortedLists(a.fields.Keys);
    SortedLists(b.fields.Keys);
    var ks, ls := Sorted(a.fields.Keys), Sorted(b.fields.Keys);
    Cancel("{", Members(a, ks, 0, s), Members(b, ls, 0, t));
    MembersReadOnce(a, b, ks, ls, 0, s, t);
    assert ks == ls;
    SameFields(a.fields, b.fields, ks);
  }

  lemma SameFields(f: map<string, Json>, g: map<string, Json>, keys: seq<string>)
    requires forall k :: k in f <==> k in keys
    requires forall k :: k in g <==> k in keys
    requires forall i :: 0 <= i < |keys| ==> f[keys[i]] == g[keys[i]]
    ensures f == g
  {
  }

  lemma {:induction false} ItemsReadOnce(a: Json, b: Json, i: nat, s: string, t: string)
    requires a.JArray? && b.JArray? && i <= |a.items| && i <= |b.items|
    requires Items(a, i, s) == Items(b, i, t) && Delimited(s) && Delimited(t)
    requires a.items[..i] == b.items[..i]
    ensures a.items == b.items && s == t
    decreases a, 1, |a.items| - i
  {
    ItemsOpen(a, i, s);
    ItemsOpen(b, i, t);
    if i == |a.items| {
      Cancel("]", s, t);
      assert a.items == a.items[..i] && b.items == b.items[..i];
    } else {
      var a', b' := Items(a, i + 1, s), Items(b, i + 1, t);
      Cancel(Separator(i), Write(a.items[i], a'), Write(b.items[i], b'));
      ItemsOpen(a, i + 1, s);
      ItemsOpen(b, i + 1, t);
      ReadsOnce(a.items[i], b.items[i], a', b');
      assert a.items[..i + 1] == a.items[..i] + [a.items[i]];
      assert b.items[..i + 1] == b.items[..i] + [b.items[i]];
      ItemsReadOnce(a, b, i + 1, s, t);
    }
  }

  lemma {:induction false} MemberReadsOnce(a: Json, b: Json, k: string, l: string, s: string, t: string)
    requires a.JObject? && b.JObject? && k in a.fields && l in b.fields
    requires Member(a, k, s) == Member(b, l, t) && Delimited(s) && Delimited(t)
    ensures k == l && a.fields[k] == b.fields[l] && s == t
    decreases a, 0
  {
    var x, y := Write(a.fields[k], s), Write(b.fields[l], t);
    Cancel("\"", StringBody(k, ":" + x), StringBody(l, ":" + y));
    StringReadsOnce(k, l, ":" + x, ":" + y);
    Cancel(":", x, y);
    ReadsOnce(a.fields[k], b.fields[l], s, t);
  }

  lemma {:induction false} NextMemberReadsOnce(
      a: Json, b: Json, ks: seq<string>, ls: seq<string>, i: nat, s: string, t: string)
    requires a.JObject? && b.JObject? && i < |ks| && i < |ls|
    requires forall k :: k in ks ==> k in a.fields
    requires forall k :: k in ls ==> k in b.fields
    requires Members(a, ks, i, s) == Members(b, ls, i, t)
    ensures ks[i] == ls[i] && a.fields[ks[i]] == b.fields[ls[i]]
    ensures Members(a, ks, i + 1, s) == Members(b, ls, i + 1, t)
    decreases a, 1, 0
  {
    var a', b' := Members(a, ks, i + 1, s), Members(b, ls, i + 1, t);
    Cancel(Separator(i), Member(a, ks[i], a'), Member(b, ls[i], b'));
    MembersOpen(a, ks, i + 1, s);
    MembersOpen(b, ls, i + 1, t);
    MemberReadsOnce(a, b, ks[i], ls[i], a', b');
  }

  lemma {:induction false} MembersReadOnce(
      a: Json, b: Json, ks: seq<string>, ls: seq<string>, i: nat, s: string, t: string)
    requires a.JObject? && b.JObject? && i <= |ks| && i <= |ls|
    requires forall k :: k in ks ==> k in a.fields
    requires forall k :: k in ls ==> k in b.fields
    requires Members(a, ks, i, s) == Members(b, ls, i, t) && Delimited(s) && Delimited(t)
    ensures |ks| == |ls| && s == t
    ensures forall n :: i <= n < |ks| ==> ks[n] == ls[n] && a.fields[ks[n]] == b.fields[ls[n]]
    decreases a, 1, |ks| - i
  {
    MembersOpen(a, ks, i, s);
    MembersOpen(b, ls, i, t);
    if i == |ks| {
      Cancel("}", s, t);
    } else {
      NextMemberReadsOnce(a, b, ks, ls, i, s, t);
      MembersReadOnce(a, b, ks, ls, i + 1, s, t);
    }
  }

  /** Two values have the same canonical text exactly when they are equal. */
  lemma TextInjective(a: Json, b: Json)
    ensures Text(a) == Text(b) <==> a == b
  {
    if Text(a) == Text(b) {
      ReadsOnce(a, b, "", "");
    }
  }
}
