/** The parts of the JavaScript runtime that the service's logic leans on:
    thrown values, truthiness of optional strings, the string built-ins it
    calls (`split`, `includes`, `substring`, `slice`, `replace`,
    `toLowerCase`, `toString`), hex encoding of bytes, plain JSON values and
    plain objects. Characters are single code units here. */
module Js {
  import opened Wrappers

  type byte = x: int | 0 <= x < 256

  /** A thrown value: an `Error` with its `message`, or anything else. */
  datatype Thrown = Error(message: string) | NonError

  /** `e.message || fallback`: a non-Error has no message. */
  function MessageOr(e: Thrown, fallback: string): (m: string)
    ensures m == fallback || (e.Error? && m == e.message && m != "")
  {
    if e.Error? && e.message != "" then e.message else fallback
  }

  /** `e instanceof Error ? e.message : fallback`: an Error's empty message is kept. */
  function ErrorMessageOr(e: Thrown, fallback: string): (m: string)
    ensures e.Error? ==> m == e.message
    ensures e.NonError? ==> m == fallback
  {
    match e
    case Error(msg) => msg
    case NonError => fallback
  }

  /** Truthiness of a `string | null | undefined`: present and non-empty. */
  predicate Truthy(o: Option<string>) {
    o.Some? && o.value != ""
  }

  /** `o || fallback` for an optional string. */
  function Or(o: Option<string>, fallback: string): (s: string)
    ensures Truthy(o) ==> s == o.value
    ensures !Truthy(o) ==> s == fallback
  {
    if Truthy(o) then o.value else fallback
  }

  /** `o || null`: the empty string is stored as null. */
  function OrNull(o: Option<string>): (r: Option<string>)
    ensures r.Some? <==> Truthy(o)
    ensures r.Some? ==> r == o
  {
    if Truthy(o) then o else None
  }

  // ---------------------------------------------------------------------
  // String.prototype.split with a one-character separator

  function Count(s: string, d: char): nat {
    if s == [] then 0 else (if s[0] == d then 1 else 0) + Count(s[1..], d)
  }

  lemma {:induction false} CountAppend(a: string, b: string, d: char)
    ensures Count(a + b, d) == Count(a, d) + Count(b, d)
  {
    if a == [] {
      assert a + b == b;
    } else {
      assert (a + b)[0] == a[0] && (a + b)[1..] == a[1..] + b;
      CountAppend(a[1..], b, d);
    }
  }

  lemma {:induction false} CountAbsent(s: string, d: char)
    ensures Count(s, d) == 0 <==> d !in s
  {
    if s != [] {
      CountAbsent(s[1..], d);
      assert s == [s[0]] + s[1..];
    }
  }

  /** `s.split(d)`: the pieces between separators; `"".split(d)` is `[""]`. */
  function Split(s: string, d: char): (parts: seq<string>)
    ensures |parts| == Count(s, d) + 1
    ensures forall i :: 0 <= i < |parts| ==> d !in parts[i]
    decreases |s|
  {
    if s == [] then [""]
    else
      var rest := Split(s[1..], d);
      if s[0] == d then [""] + rest
      else [[s[0]] + rest[0]] + rest[1..]
  }

  /** `parts.join(d)`. */
  function Join(parts: seq<string>, d: char): string
    requires |parts| >= 1
  {
    if |parts| == 1 then parts[0] else parts[0] + [d] + Join(parts[1..], d)
  }

  /** Splitting and joining back gives the original string. */
  lemma {:induction false} JoinSplit(s: string, d: char)
    ensures Join(Split(s, d), d) == s
    decreases |s|
  {
    if s != [] {
      var rest := Split(s[1..], d);
      JoinSplit(s[1..], d);
      if s[0] != d {
        if |rest| > 1 {
          assert Split(s, d)[1..] == rest[1..];
        }
      }
    }
  }

  lemma {:induction false} SplitPlain(x: string, d: char)
    requires d !in x
    ensures Split(x, d) == [x]
  {
    if x != [] {
      assert x[0] != d && d !in x[1..];
      SplitPlain(x[1..], d);
      assert [x[0]] + x[1..] == x;
    }
  }

  lemma {:induction false} SplitAround(x: string, d: char, y: string)
    requires d !in x
    ensures Split(x + [d] + y, d) == [x] + Split(y, d)
  {
    if x == [] {
      assert (x + [d] + y)[1..] == y;
    } else {
      assert (x + [d] + y)[1..] == x[1..] + [d] + y;
      SplitAround(x[1..], d, y);
      assert [x[0]] + x[1..] == x;
    }
  }

  /** Three pieces without the separator, joined by it, split back into
      exactly those three. */
  lemma SplitThree(x: string, y: string, z: string, d: char)
    requires d !in x && d !in y && d !in z
    ensures Split(x + [d] + y + [d] + z, d) == [x, y, z]
  {
    assert x + [d] + y + [d] + z == x + [d] + (y + [d] + z);
    SplitAround(x, d, y + [d] + z);
    SplitAround(y, d, z);
    SplitPlain(z, d);
  }

  /** Joining pieces that do not contain the separator and splitting again
      gives the pieces back. */
  lemma {:induction false} SplitJoin(parts: seq<string>, d: char)
    requires |parts| >= 1
    requires forall i :: 0 <= i < |parts| ==> d !in parts[i]
    ensures Split(Join(parts, d), d) == parts
  {
    if |parts| == 1 {
      SplitPlain(parts[0], d);
    } else {
      SplitJoin(parts[1..], d);
      SplitAround(parts[0], d, Join(parts[1..], d));
    }
  }

  // ---------------------------------------------------------------------
  // String.prototype.includes

  predicate Includes(s: string, t: string)
    decreases |s|
  {
    (|t| <= |s| && s[..|t|] == t) || (s != [] && Includes(s[1..], t))
  }

  /** `t` occurs in `s` starting at position `i`. */
  predicate OccursAt(s: string, t: string, i: int) {
    0 <= i && i + |t| <= |s| && s[i..i + |t|] == t
  }

  /** `s.includes(t)` holds exactly when `t` occurs at some position of `s`. */
  lemma IncludesOccurrence(s: string, t: string)
    ensures Includes(s, t) <==> exists i :: OccursAt(s, t, i)
  {
    if Includes(s, t) {
      IncludesOccurs(s, t);
    }
    if exists i :: OccursAt(s, t, i) {
      var i :| OccursAt(s, t, i);
      OccursIncludes(s, t, i);
    }
  }

  lemma {:induction false} IncludesOccurs(s: string, t: string)
    requires Includes(s, t)
    ensures exists i :: OccursAt(s, t, i)
    decreases |s|
  {
    if |t| <= |s| && s[..|t|] == t {
      assert OccursAt(s, t, 0);
    } else {
      IncludesOccurs(s[1..], t);
      var i :| OccursAt(s[1..], t, i);
      assert s[i + 1..i + 1 + |t|] == s[1..][i..i + |t|];
      assert OccursAt(s, t, i + 1);
    }
  }

  lemma {:induction false} OccursIncludes(s: string, t: string, i: int)
    requires OccursAt(s, t, i)
    ensures Includes(s, t)
    decreases i
  {
    if i == 0 {
      assert s[..|t|] == s[0..|t|];
    } else {
      assert s[1..][i - 1..i - 1 + |t|] == s[i..i + |t|];
      OccursIncludes(s[1..], t, i - 1);
    }
  }

  // ---------------------------------------------------------------------
  // substring and slice

  /** `s.substring(0, n)`. */
  function Prefix(s: string, n: nat): (r: string)
    ensures |r| <= n && r <= s
    ensures |s| <= n ==> r == s
    ensures n <= |s| ==> |r| == n
  {
    if |s| <= n then s else s[..n]
  }

  /** `s.slice(-n)` for n > 0: the last n characters, or all of a shorter s. */
  function SliceLast(s: string, n: nat): (r: string)
    requires n > 0
    ensures |r| == if |s| < n then |s| else n
    ensures s == s[..|s| - |r|] + r
  {
    if |s| <= n then s else s[|s| - n..]
  }

  // ---------------------------------------------------------------------
  // Hex encoding, as Buffer.toString('hex') writes it

  predicate IsHexDigit(c: char) {
    '0' <= c <= '9' || 'a' <= c <= 'f'
  }

  function HexDigit(k: nat): (c: char)
    requires k < 16
    ensures IsHexDigit(c)
  {
    if k < 10 then ('0' as int + k) as char else ('a' as int + k - 10) as char
  }

  function HexDigitValue(c: char): (k: nat)
    requires IsHexDigit(c)
    ensures k < 16 && HexDigit(k) == c
  {
    if c <= '9' then c as int - '0' as int else c as int - 'a' as int + 10
  }

  /** Two lower-case hex digits per byte, high nibble first. */
  function Hex(b: seq<byte>): (h: string)
    ensures |h| == 2 * |b|
    ensures forall i :: 0 <= i < |h| ==> IsHexDigit(h[i])
  {
    if b == [] then "" else [HexDigit(b[0] / 16), HexDigit(b[0] % 16)] + Hex(b[1..])
  }

  /** Strict hex decoding, `Buffer.from(h, 'hex')` on well-formed input. */
  function Unhex(h: string): seq<byte>
    requires |h| % 2 == 0
    requires forall i :: 0 <= i < |h| ==> IsHexDigit(h[i])
  {
    if h == [] then [] else [HexDigitValue(h[0]) * 16 + HexDigitValue(h[1])] + Unhex(h[2..])
  }

  lemma {:induction false} UnhexHex(b: seq<byte>)
    ensures Unhex(Hex(b)) == b
  {
    if b != [] {
      var h := Hex(b);
      assert h[2..] == Hex(b[1..]);
      assert HexDigitValue(h[0]) == b[0] / 16;
      assert HexDigitValue(h[1]) == b[0] % 16;
      UnhexHex(b[1..]);
    }
  }

  // ---------------------------------------------------------------------
  // Number.prototype.toString() for a non-negative integer

  predicate IsDecimalDigit(c: char) { '0' <= c <= '9' }

  function DecimalDigit(k: nat): (c: char)
    requires k < 10
    ensures IsDecimalDigit(c)
  {
    ('0' as int + k) as char
  }

  function Decimal(n: nat): (s: string)
    ensures |s| >= 1
    ensures forall i :: 0 <= i < |s| ==> IsDecimalDigit(s[i])
    ensures s[0] == '0' ==> n == 0
    decreases n
  {
    if n < 10 then [DecimalDigit(n)] else Decimal(n / 10) + [DecimalDigit(n % 10)]
  }

  function DecimalDigitValue(c: char): (k: nat)
    requires IsDecimalDigit(c)
    ensures k < 10 && DecimalDigit(k) == c
  {
    c as int - '0' as int
  }

  function DecimalValue(s: string): nat
    requires forall i :: 0 <= i < |s| ==> IsDecimalDigit(s[i])
  {
    if s == [] then 0 else DecimalValue(s[..|s| - 1]) * 10 + DecimalDigitValue(s[|s| - 1])
  }

  lemma {:induction false} DecimalValueOfDecimal(n: nat)
    ensures DecimalValue(Decimal(n)) == n
    decreases n
  {
    if n >= 10 {
      var s := Decimal(n);
      assert s[..|s| - 1] == Decimal(n / 10);
      DecimalValueOfDecimal(n / 10);
    }
  }

  function Pow10(k: nat): (p: nat)
    ensures p >= 1
  {
    if k == 0 then 1 else 10 * Pow10(k - 1)
  }

  lemma MulMono(a: int, b: int, m: nat)
    requires a <= b
    ensures a * m <= b * m
  {
  }

  lemma ModUnique(n: int, m: int, q: int, r: int)
    requires m > 0 && 0 <= r < m && n == q * m + r
    ensures n % m == r
  {
    var q0 := n / m;
    if q > q0 {
      MulMono(q0 + 1, q, m);
    } else if q < q0 {
      MulMono(q + 1, q0, m);
    }
  }

  lemma ModOfSplit(n: nat, p: nat)
    requires p >= 1
    ensures ((n / 10) % p) * 10 + n % 10 == n % (10 * p)
  {
    var q, r := n / 10, n % 10;
    var a, b := q / p, q % p;
    assert n == 10 * q + r;
    assert q == a * p + b;
    assert 10 * q == a * (10 * p) + 10 * b;
    assert n == a * (10 * p) + (10 * b + r);
    ModUnique(n, 10 * p, a, 10 * b + r);
  }

  lemma SliceLastSnoc(t: string, c: char, k: nat)
    requires k > 1
    ensures SliceLast(t + [c], k) == SliceLast(t, k - 1) + [c]
  {
    var u := t + [c];
    if |u| <= k {
      assert SliceLast(u, k) == u && SliceLast(t, k - 1) == t;
    } else {
      assert SliceLast(u, k) == u[|u| - k..] && SliceLast(t, k - 1) == t[|t| - (k - 1)..];
      assert u[|u| - k..] == t[|t| - (k - 1)..] + [c];
    }
  }

  lemma DecimalValueSnoc(s: string, c: char)
    requires forall i :: 0 <= i < |s| ==> IsDecimalDigit(s[i])
    requires IsDecimalDigit(c)
    ensures DecimalValue(s + [c]) == DecimalValue(s) * 10 + DecimalDigitValue(c)
  {
    assert (s + [c])[..|s|] == s;
  }

  lemma SingleDigitValue(n: nat, k: nat)
    requires n < 10 && k > 0
    ensures DecimalValue(SliceLast(Decimal(n), k)) == n % Pow10(k)
  {
    var c := DecimalDigit(n);
    assert Decimal(n) == [c];
    DecimalValueSnoc([], c);
    assert [] + [c] == [c];
    assert Pow10(k) >= 10 by {
      assert Pow10(k) == 10 * Pow10(k - 1);
    }
    ModUnique(n, Pow10(k), 0, n);
  }

  lemma LastDigitValue(n: nat)
    requires n >= 10
    ensures DecimalValue(SliceLast(Decimal(n), 1)) == n % Pow10(1)
  {
    var c := DecimalDigit(n % 10);
    DecimalValueSnoc([], c);
    assert [] + [c] == [c];
    assert Decimal(n) == Decimal(n / 10) + [c];
    assert SliceLast(Decimal(n), 1) == [c];
    assert Pow10(1) == 10;
  }

  /** The last k characters of `n.toString()` are the digits of `n % 10^k`. */
  lemma {:induction false} LastDigitsValue(n: nat, k: nat)
    requires k > 0
    ensures DecimalValue(SliceLast(Decimal(n), k)) == n % Pow10(k)
    decreases n
  {
    if n < 10 {
      SingleDigitValue(n, k);
    } else if k == 1 {
      LastDigitValue(n);
    } else {
      LastDigitsValue(n / 10, k - 1);
      LastDigitsStep(n, k);
    }
  }

  /** One more digit: from the last k - 1 digits of n / 10 to the last k of n. */
  lemma LastDigitsStep(n: nat, k: nat)
    requires n >= 10 && k > 1
    requires DecimalValue(SliceLast(Decimal(n / 10), k - 1)) == (n / 10) % Pow10(k - 1)
    ensures DecimalValue(SliceLast(Decimal(n), k)) == n % Pow10(k)
  {
    DigitsSnoc(n, k);
    ModPow10Split(n, k);
  }

  lemma ModPow10Split(n: nat, k: nat)
    requires k > 0
    ensures ((n / 10) % Pow10(k - 1)) * 10 + n % 10 == n % Pow10(k)
  {
    ModOfSplit(n, Pow10(k - 1));
    assert Pow10(k) == 10 * Pow10(k - 1);
  }

  /** The last k digits of n are the last k - 1 digits of n / 10, then n's
      last digit. */
  lemma DigitsSnoc(n: nat, k: nat)
    requires n >= 10 && k > 1
    ensures DecimalValue(SliceLast(Decimal(n), k)) == DecimalValue(SliceLast(Decimal(n / 10), k - 1)) * 10 + n % 10
  {
    var c := DecimalDigit(n % 10);
    var t := Decimal(n / 10);
    assert Decimal(n) == t + [c];
    SliceLastSnoc(t, c, k);
    var last := SliceLast(t, k - 1);
    if |t| <= k - 1 {
      assert last == t;
    } else {
      assert last == t[|t| - (k - 1)..];
    }
    DecimalValueSnoc(last, c);
    assert DecimalDigitValue(c) == n % 10;
  }

  // ---------------------------------------------------------------------
  // ASCII-only character classes

  predicate IsAsciiAlnum(c: char) {
    'a' <= c <= 'z' || 'A' <= c <= 'Z' || '0' <= c <= '9'
  }

  predicate IsLowerAlnum(c: char) {
    'a' <= c <= 'z' || '0' <= c <= '9'
  }

  /** `s.replace(/[^a-z0-9]/gi, '')`: keeps the ASCII letters and digits, in order.
      (Without the `u` flag, case folding never maps a non-ASCII character onto
      an ASCII one, so exactly the ASCII letters and digits survive.) */
  function KeepAsciiAlnum(s: string): (r: string)
    ensures |r| <= |s|
    ensures forall i :: 0 <= i < |r| ==> IsAsciiAlnum(r[i])
    ensures (forall i :: 0 <= i < |s| ==> !IsAsciiAlnum(s[i])) ==> r == ""
    ensures (forall i :: 0 <= i < |s| ==> IsAsciiAlnum(s[i])) ==> r == s
    ensures |s| == 1 ==> r == (if IsAsciiAlnum(s[0]) then s else "")
  {
    if s == [] then "" else (if IsAsciiAlnum(s[0]) then [s[0]] else "") + KeepAsciiAlnum(s[1..])
  }

  /** The filter works character by character: filtering a concatenation
      concatenates the filtered parts, so the kept characters stay in order. */
  lemma {:induction false} KeepAsciiAlnumAppend(a: string, b: string)
    ensures KeepAsciiAlnum(a + b) == KeepAsciiAlnum(a) + KeepAsciiAlnum(b)
  {
    if a == [] {
      assert a + b == b;
    } else {
      assert (a + b)[0] == a[0] && (a + b)[1..] == a[1..] + b;
      KeepAsciiAlnumAppend(a[1..], b);
    }
  }

  function LowerChar(c: char): (r: char)
    ensures IsAsciiAlnum(c) ==> IsLowerAlnum(r)
  {
    if 'A' <= c <= 'Z' then (c as int - 'A' as int + 'a' as int) as char else c
  }

  /** `s.toLowerCase()` on a string of ASCII letters and digits. */
  function LowerAscii(s: string): (r: string)
    requires forall i :: 0 <= i < |s| ==> IsAsciiAlnum(s[i])
    ensures |r| == |s|
    ensures forall i :: 0 <= i < |r| ==> IsLowerAlnum(r[i]) && LowerChar(s[i]) == r[i]
  {
    seq(|s|, i requires 0 <= i < |s| => LowerChar(s[i]))
  }

  lemma LowerAsciiSnoc(s: string, c: char)
    requires forall i :: 0 <= i < |s| ==> IsAsciiAlnum(s[i])
    requires IsAsciiAlnum(c)
    ensures LowerAscii(s + [c]) == LowerAscii(s) + [LowerChar(c)]
  {
    assert forall i :: 0 <= i < |s| ==> (s + [c])[i] == s[i];
  }

  // ---------------------------------------------------------------------
  // Values

  /** A JSON value as `JSON.parse` produces it (numbers kept integral). */
  datatype Json =
    | JNull
    | JBool(b: bool)
    | JNumber(n: int)
    | JString(s: string)
    | JArray(items: seq<Json>)
    | JObject(members: seq<(string, Json)>)

  /** No member after position `i` is named `k`. */
  predicate LastNamed(members: seq<(string, Json)>, k: string, i: int) {
    forall j :: 0 <= j < |members| && i < j ==> members[j].0 != k
  }

  /** The last member named `k`, which is the one `JSON.parse` keeps when a
      key is repeated; none when no member has that name. */
  function LastMember(members: seq<(string, Json)>, k: string): (o: Option<Json>)
    ensures o.None? <==> forall i :: 0 <= i < |members| ==> members[i].0 != k
    ensures o.Some? ==> exists i :: 0 <= i < |members| && members[i] == (k, o.value) && LastNamed(members, k, i)
  {
    if |members| == 0 then None
    else if members[|members| - 1].0 == k then Some(members[|members| - 1].1)
    else
      var o := LastMember(members[..|members| - 1], k);
      assert forall i :: 0 <= i < |members| - 1 ==> members[..|members| - 1][i] == members[i];
      o
  }

  /** Property access `v.k` on a parsed value: an object's own member, and
      `undefined` (None) on every other value, as none of them owns `k` and
      the properties read here are not inherited. */
  function Property(v: Json, k: string): Option<Json> {
    if v.JObject? then LastMember(v.members, k) else None
  }

  /** Whether converting `v` to a string, as a template literal does, throws.
      A parsed object owning a `toString` member cannot call it (no parsed
      value is callable), so the conversion falls through to the inherited
      `valueOf`, which returns the object itself, and throws a TypeError. An
      array converts by joining its items and throws when one of them does.
      `null`, booleans, numbers and strings always convert. */
  predicate ToStringThrows(v: Json) {
    match v
    case JObject(members) => exists i :: 0 <= i < |members| && members[i].0 == "toString"
    case JArray(items) => exists i :: 0 <= i < |items| && ToStringThrows(items[i])
    case _ => false
  }

  /** A property value of a plain object read from the database. */
  datatype Value = Str(s: string) | Null | Stamp(ms: int)

  /** A plain object: the keys it owns and their values. */
  type Record = map<string, Value>

  /** A property that holds a non-empty string (`typeof v === 'string' && v`). */
  predicate NonEmptyStr(r: Record, k: string) {
    k in r && r[k].Str? && r[k].s != ""
  }

  /** The property `k` of `r` when it holds a non-empty string, else None. */
  function TextOf(r: Record, k: string): (o: Option<string>)
    ensures Truthy(o) <==> NonEmptyStr(r, k)
    ensures o.Some? ==> k in r && r[k].Str? && o.value == r[k].s
  {
    if NonEmptyStr(r, k) then Some(r[k].s) else None
  }
}
