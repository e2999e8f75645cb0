/** The key helpers of `apiKeyGenerator`: a random short key, a display mask
    and a readable key identifier. `crypto.randomBytes` (its bytes, or its
    throw) and `Date.now()` are inputs. */
module ApiKeys {
  import opened Wrappers
  import opened Js

  const KEY_PREFIX := "nfy_"
  const GENERATE_FAILED := "Failed to generate API key"
  const BULLET: char := '\U{2022}'
  const RANDOM_BYTES: nat := 5
  const SHOWN: nat := 4
  const SHORT_KEY: nat := 10

  function Bullets(n: nat): (b: string)
    ensures |b| == n && Count(b, BULLET) == n
  {
    if n == 0 then "" else [BULLET] + Bullets(n - 1)
  }

  /** `generateApiKey(projectId, projectName)`: `nfy_` and the hex of five
      random bytes; the project is only logged. */
  function GenerateApiKey(projectId: string, projectName: string, random: Result<seq<byte>, Thrown>): (r: Result<string, Thrown>)
    requires random.Success? ==> |random.value| == RANDOM_BYTES
    ensures random.Failure? ==> r == Failure(Error(GENERATE_FAILED))
    ensures random.Success? ==> r.Success? && |r.value| == 14 && r.value[..4] == KEY_PREFIX
    ensures random.Success? ==> forall i :: 4 <= i < |r.value| ==> IsHexDigit(r.value[i])
  {
    match random
    case Failure(_) => Failure(Error(GENERATE_FAILED))
    case Success(bytes) => Success(KEY_PREFIX + Hex(bytes))
  }

  /** The key carries the random bytes and nothing else: its hex part
      decodes back to them, whatever the project. */
  lemma GeneratedKeyDecodes(projectId: string, projectName: string, bytes: seq<byte>)
    requires |bytes| == RANDOM_BYTES
    ensures var key := GenerateApiKey(projectId, projectName, Success(bytes)).value;
      |key| == 14 && Unhex(key[4..]) == bytes
  {
    var key := GenerateApiKey(projectId, projectName, Success(bytes)).value;
    assert key[4..] == Hex(bytes);
    UnhexHex(bytes);
  }

  /** `maskApiKey(apiKey)`. */
  function MaskApiKey(apiKey: string): (m: string)
    ensures |apiKey| <= SHORT_KEY ==> m == Bullets(SHORT_KEY)
    ensures |apiKey| > SHORT_KEY ==>
      && |m| == 14 && m[..SHOWN] == apiKey[..SHOWN]
      && m[SHOWN..10] == Bullets(6) && m[10..] == apiKey[|apiKey| - SHOWN..]
  {
    if |apiKey| <= SHORT_KEY then Bullets(SHORT_KEY)
    else apiKey[..SHOWN] + Bullets(6) + apiKey[|apiKey| - SHOWN..]
  }

  /** A mask shows at most eight characters that are not bullets, and only
      the key's own first four and last four. */
  lemma MaskExposesAtMostEight(apiKey: string)
    ensures var m := MaskApiKey(apiKey);
      && |m| - Count(m, BULLET) <= 2 * SHOWN
      && (forall i :: 0 <= i < |m| && m[i] != BULLET ==>
            (i < SHOWN && m[i] == apiKey[i]) || (10 <= i && m[i] == apiKey[|apiKey| - 14 + i]))
  {
    var m := MaskApiKey(apiKey);
    if |apiKey| > SHORT_KEY {
      var head, tail := apiKey[..SHOWN], apiKey[|apiKey| - SHOWN..];
      assert m == head + Bullets(6) + tail;
      CountAppend(head + Bullets(6), tail, BULLET);
      CountAppend(head, Bullets(6), BULLET);
    }
  }

  /** `Date.now().toString().slice(-6)`. */
  function TimestampSuffix(now: nat): (ts: string)
    ensures 1 <= |ts| <= 6
    ensures now >= 100000 ==> |ts| == 6
    ensures forall i :: 0 <= i < |ts| ==> IsDecimalDigit(ts[i])
  {
    var digits := Decimal(now);
    assert now >= 100000 ==> |digits| >= 6 by {
      if now >= 100000 && |digits| < 6 {
        DecimalValueOfDecimal(now);
        DecimalBelow(digits);
        Pow10Mono(|digits|, 5);
      }
    }
    SliceLast(digits, 6)
  }

  lemma {:induction false} Pow10Mono(a: nat, b: nat)
    requires a <= b
    ensures Pow10(a) <= Pow10(b)
    decreases b
  {
    if a < b {
      Pow10Mono(a, b - 1);
    }
  }

  lemma {:induction false} DecimalBelow(s: string)
    requires forall i :: 0 <= i < |s| ==> IsDecimalDigit(s[i])
    ensures DecimalValue(s) < Pow10(|s|)
  {
    if s != [] {
      DecimalBelow(s[..|s| - 1]);
    }
  }

  /** The suffix is the clock modulo one million, written in decimal. */
  lemma TimestampSuffixValue(now: nat)
    ensures DecimalValue(TimestampSuffix(now)) == now % 1000000
  {
    LastDigitsValue(now, 6);
    assert Pow10(6) == 1000000;
  }

  /** The identifier's middle part: up to eight ASCII letters and digits of
      the name, in order, lower-cased. */
  function NamePart(projectName: string): (part: string)
    ensures |part| <= 8
    ensures |part| == if |KeepAsciiAlnum(projectName)| < 8 then |KeepAsciiAlnum(projectName)| else 8
    ensures forall i :: 0 <= i < |part| ==> IsLowerAlnum(part[i]) && part[i] == LowerChar(KeepAsciiAlnum(projectName)[i])
  {
    LowerAscii(Prefix(KeepAsciiAlnum(projectName), 8))
  }

  /** A character that is not an ASCII letter or digit plays no part. */
  lemma NamePartSkipsOthers(a: string, ch: char, b: string)
    requires !IsAsciiAlnum(ch)
    ensures NamePart(a + [ch] + b) == NamePart(a + b)
  {
    KeepAsciiAlnumAppend(a + [ch], b);
    KeepAsciiAlnumAppend(a, [ch]);
    KeepAsciiAlnumAppend(a, b);
    assert KeepAsciiAlnum(a + [ch]) == KeepAsciiAlnum(a);
  }

  /** Until eight are kept, a further letter or digit is appended, lower-cased. */
  lemma NamePartSnoc(a: string, ch: char)
    requires |KeepAsciiAlnum(a)| < 8 && IsAsciiAlnum(ch)
    ensures NamePart(a + [ch]) == NamePart(a) + [LowerChar(ch)]
  {
    var kept := KeepAsciiAlnum(a);
    KeepAsciiAlnumAppend(a, [ch]);
    assert KeepAsciiAlnum(a + [ch]) == kept + [ch];
    assert Prefix(kept + [ch], 8) == kept + [ch];
    assert Prefix(kept, 8) == kept;
    LowerAsciiSnoc(kept, ch);
  }

  /** Once eight letters and digits are kept, the rest of the name is ignored. */
  lemma NamePartFirstEight(a: string, b: string)
    requires |KeepAsciiAlnum(a)| >= 8
    ensures NamePart(a + b) == NamePart(a)
  {
    KeepAsciiAlnumAppend(a, b);
    assert Prefix(KeepAsciiAlnum(a + b), 8) == Prefix(KeepAsciiAlnum(a), 8);
  }

  /** `generateApiKeyId(projectName)`. */
  function GenerateApiKeyId(projectName: string, now: nat): (id: string)
    ensures 6 <= |id| <= 19
    ensures id[..4] == KEY_PREFIX
  {
    KEY_PREFIX + NamePart(projectName) + "_" + TimestampSuffix(now)
  }

  lemma NoUnderscoreIn(s: string)
    requires forall i :: 0 <= i < |s| ==> IsLowerAlnum(s[i]) || IsDecimalDigit(s[i])
    ensures '_' !in s
  {
    assert forall i :: 0 <= i < |s| ==> s[i] != '_';
  }

  /** The identifier splits on `_` into exactly its three pieces. */
  lemma ApiKeyIdPieces(projectName: string, now: nat)
    ensures Split(GenerateApiKeyId(projectName, now), '_') == ["nfy", NamePart(projectName), TimestampSuffix(now)]
  {
    var part, ts := NamePart(projectName), TimestampSuffix(now);
    NoUnderscoreIn(part);
    NoUnderscoreIn(ts);
    assert KEY_PREFIX == "nfy" + ['_'];
    assert '_' !in "nfy";
    SplitThree("nfy", part, ts, '_');
  }

  /** A name without ASCII letters or digits leaves the middle empty. */
  lemma ApiKeyIdWithoutAlnum(projectName: string, now: nat)
    requires forall i :: 0 <= i < |projectName| ==> !IsAsciiAlnum(projectName[i])
    ensures GenerateApiKeyId(projectName, now) == "nfy__" + TimestampSuffix(now)
  {
    assert KeepAsciiAlnum(projectName) == "";
    assert Prefix("", 8) == "";
    assert LowerAscii("") == "";
    assert NamePart(projectName) == "";
    assert KEY_PREFIX + "" + "_" == "nfy__";
  }

  /** A name of up to eight letters and digits is kept whole, lower-cased. */
  lemma ApiKeyIdKeepsShortName(projectName: string, now: nat)
    requires |projectName| <= 8
    requires forall i :: 0 <= i < |projectName| ==> IsAsciiAlnum(projectName[i])
    ensures NamePart(projectName) == LowerAscii(projectName)
  {
  }
}
