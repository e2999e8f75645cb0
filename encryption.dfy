/** Credentials at rest: AES-256-GCM sealing into an `iv:authTag:ciphertext`
    hex triple, the lenient opening that passes legacy plaintext through,
    per-record sealing of the three sensitive columns, and the
    scan-then-compare lookup of a project by its issued credentials.

    The cipher itself (AES-256-GCM, section 7 of NIST SP 800-38D, reached
    through Node's `crypto`) is an oracle: `seal` yields a 16-byte tag and the
    ciphertext bytes, `open` takes the three hex parts and yields the plaintext
    or nothing when deciphering or authentication fails. `Sound` is the
    round-trip property such a cipher has. */
module Encryption {
  import opened Wrappers
  import opened Js
  import opened Schema

  const IV_LENGTH: nat := 16
  const AUTH_TAG_LENGTH: nat := 16

  /** Sixteen bytes: an IV from `randomBytes(IV_LENGTH)` or an auth tag. */
  type Block = b: seq<byte> | |b| == 16 witness seq(16, _ => 0)

  const MISSING_KEY := "ENCRYPTION_KEY environment variable is not set. Cannot encrypt/decrypt credentials."

  datatype Sealed = Sealed(tag: Block, body: seq<byte>)

  datatype Cipher = Cipher(
    seal: (string, Block, string) -> Result<Sealed, Thrown>,
    open: (string, string, string, string) -> Option<string>)

  /** Opening what was sealed under the same key gives the plaintext back. */
  ghost predicate Sound(c: Cipher) {
    forall key: string, iv: Block, p: string :: c.seal(key, iv, p).Success? ==>
      c.open(key, Hex(iv), Hex(c.seal(key, iv, p).value.tag), Hex(c.seal(key, iv, p).value.body)) == Some(p)
  }

  /** `getKey()`: the `ENCRYPTION_KEY` setting, which must be non-empty. */
  function GetKey(env: Option<string>): (r: Result<string, Thrown>)
    ensures r.Success? <==> Truthy(env)
    ensures r.Success? ==> r.value == env.value
    ensures r.Failure? ==> r.error == Error(MISSING_KEY)
  {
    if Truthy(env) then Success(env.value) else Failure(Error(MISSING_KEY))
  }

  /** The stored shape of a sealed value: exactly three `:`-separated parts. */
  predicate IsTriple(s: string) {
    |Split(s, ':')| == 3
  }

  /** `encrypt(plaintext)` with the fresh IV `iv`. */
  function Encrypt(c: Cipher, env: Option<string>, iv: Block, plaintext: string): (r: Result<string, Thrown>)
    ensures !Truthy(env) ==> r == Failure(Error(MISSING_KEY))
    ensures r.Success? <==> Truthy(env) && c.seal(env.value, iv, plaintext).Success?
    ensures r.Success? ==> |r.value| > 2 * IV_LENGTH && r.value[..2 * IV_LENGTH] == Hex(iv)
  {
    var key :- GetKey(env);
    var sealed :- c.seal(key, iv, plaintext);
    assert |Hex(iv)| == 2 * IV_LENGTH;
    Success(Hex(iv) + ":" + Hex(sealed.tag) + ":" + Hex(sealed.body))
  }

  /** What the cipher opens `text` to, when `text` has the triple shape. */
  function Opened(c: Cipher, key: string, text: string): Option<string> {
    var parts := Split(text, ':');
    if |parts| == 3 then c.open(key, parts[0], parts[1], parts[2]) else None
  }

  /** `decrypt(text)`: a value that is not a triple, or a triple the cipher
      cannot open or authenticate, comes back unchanged. */
  function Decrypt(c: Cipher, env: Option<string>, text: string): (r: Result<string, Thrown>)
    ensures !Truthy(env) ==> r == Failure(Error(MISSING_KEY))
    ensures Truthy(env) ==> r.Success?
    ensures r.Success? && !IsTriple(text) ==> r.value == text
    ensures r.Success? && Opened(c, env.value, text).None? ==> r.value == text
    ensures r.Success? && Opened(c, env.value, text).Some? ==> r.value == Opened(c, env.value, text).value
  {
    var key :- GetKey(env);
    var parts := Split(text, ':');
    if |parts| != 3 then Success(text)
    else
      match c.open(key, parts[0], parts[1], parts[2])
      case Some(plaintext) => Success(plaintext)
      case None => Success(text)
  }

  /** `encryptIfPresent(value)`: null, undefined and "" become null. */
  function EncryptIfPresent(c: Cipher, env: Option<string>, iv: Block, value: Option<string>): (r: Result<Option<string>, Thrown>)
    ensures !Truthy(value) ==> r == Success(None)
    ensures Truthy(value) ==> r.Success? == Encrypt(c, env, iv, value.value).Success?
    ensures Truthy(value) && r.Success? ==> r.value == Some(Encrypt(c, env, iv, value.value).value)
  {
    if !Truthy(value) then Success(None)
    else
      var e :- Encrypt(c, env, iv, value.value);
      Success(Some(e))
  }

  /** `decryptIfPresent(value)`: null, undefined and "" become null, even
      without a key. */
  function DecryptIfPresent(c: Cipher, env: Option<string>, value: Option<string>): (r: Result<Option<string>, Thrown>)
    ensures !Truthy(value) ==> r == Success(None)
    ensures Truthy(value) ==> r.Success? == Truthy(env)
    ensures Truthy(value) && r.Success? ==> r.value == Some(Decrypt(c, env, value.value).value)
  {
    if !Truthy(value) then Success(None)
    else
      var d :- Decrypt(c, env, value.value);
      Success(Some(d))
  }

  // ---------------------------------------------------------------------
  // Shape and round trip of the codec

  lemma HexHasNoColon(b: seq<byte>)
    ensures ':' !in Hex(b)
  {
    var h := Hex(b);
    assert forall i :: 0 <= i < |h| ==> h[i] != ':';
  }

  /** A sealed value splits into its IV (32 hex digits), its tag (32 hex
      digits) and its ciphertext, with no other `:` in it. */
  lemma EncryptedShape(c: Cipher, env: Option<string>, iv: Block, plaintext: string)
    requires Encrypt(c, env, iv, plaintext).Success?
    ensures var s := Encrypt(c, env, iv, plaintext).value;
      var sealed := c.seal(env.value, iv, plaintext).value;
      && Split(s, ':') == [Hex(iv), Hex(sealed.tag), Hex(sealed.body)]
      && IsTriple(s) && Count(s, ':') == 2
      && |Split(s, ':')[0]| == 2 * IV_LENGTH && |Split(s, ':')[1]| == 2 * AUTH_TAG_LENGTH
      && forall k :: 0 <= k < |s| && s[k] != ':' ==> IsHexDigit(s[k])
  {
    var s := Encrypt(c, env, iv, plaintext).value;
    var sealed := c.seal(env.value, iv, plaintext).value;
    var parts := [Hex(iv), Hex(sealed.tag), Hex(sealed.body)];
    HexHasNoColon(iv);
    HexHasNoColon(sealed.tag);
    HexHasNoColon(sealed.body);
    assert parts[1..][1..] == [Hex(sealed.body)];
    assert Join(parts[1..], ':') == Hex(sealed.tag) + ":" + Hex(sealed.body);
    assert Join(parts, ':') == s;
    SplitJoin(parts, ':');
    forall k | 0 <= k < |s| && s[k] != ':'
      ensures IsHexDigit(s[k])
    {
      var a, b := |Hex(iv)|, |Hex(sealed.tag)|;
      if k < a {
        assert s[k] == Hex(iv)[k];
      } else if k == a {
      } else if k < a + 1 + b {
        assert s[k] == Hex(sealed.tag)[k - a - 1];
      } else if k == a + 1 + b {
      } else {
        assert s[k] == Hex(sealed.body)[k - a - b - 2];
      }
    }
  }

  /** decrypt(encrypt(p)) == p under a sound cipher and the same key. */
  lemma RoundTrip(c: Cipher, env: Option<string>, iv: Block, plaintext: string)
    requires Sound(c)
    requires Encrypt(c, env, iv, plaintext).Success?
    ensures Decrypt(c, env, Encrypt(c, env, iv, plaintext).value) == Success(plaintext)
  {
    EncryptedShape(c, env, iv, plaintext);
  }

  /** The `...IfPresent` pair round-trips too, with "" normalised to null. */
  lemma IfPresentRoundTrip(c: Cipher, env: Option<string>, iv: Block, value: Option<string>)
    requires Sound(c)
    requires EncryptIfPresent(c, env, iv, value).Success?
    ensures DecryptIfPresent(c, env, EncryptIfPresent(c, env, iv, value).value) == Success(OrNull(value))
  {
    if Truthy(value) {
      RoundTrip(c, env, iv, value.value);
      EncryptedShape(c, env, iv, value.value);
    }
  }

  // ---------------------------------------------------------------------
  // Sensitive fields of a project record

  const SENSITIVE_FIELDS: seq<string> := ["llmApiKey", "smtpPass", "notaifyApiKey"]

  predicate Distinct(fields: seq<string>) {
    forall i, j :: 0 <= i < j < |fields| ==> fields[i] != fields[j]
  }

  /** One turn of the field loop of `encryptProjectSecrets`. */
  function SealField(c: Cipher, env: Option<string>, ivFor: string -> Block, field: string, data: Record): Result<Record, Thrown> {
    if NonEmptyStr(data, field) then
      var e :- Encrypt(c, env, ivFor(field), data[field].s);
      Success(data[field := Str(e)])
    else Success(data)
  }

  function SealFields(c: Cipher, env: Option<string>, ivFor: string -> Block, fields: seq<string>, data: Record): Result<Record, Thrown> {
    if fields == [] then Success(data)
    else
      var next :- SealField(c, env, ivFor, fields[0], data);
      SealFields(c, env, ivFor, fields[1..], next)
  }

  /** One turn of the field loop of `decryptProjectSecrets`. */
  function OpenField(c: Cipher, env: Option<string>, field: string, data: Record): Result<Record, Thrown> {
    if NonEmptyStr(data, field) then
      var d :- Decrypt(c, env, data[field].s);
      Success(data[field := Str(d)])
    else Success(data)
  }

  function OpenFields(c: Cipher, env: Option<string>, fields: seq<string>, data: Record): Result<Record, Thrown> {
    if fields == [] then Success(data)
    else
      var next :- OpenField(c, env, fields[0], data);
      OpenFields(c, env, fields[1..], next)
  }

  /** `encryptProjectSecrets(data)`: a copy of `data` whose sensitive
      non-empty strings are sealed, each with the IV drawn for it. */
  method EncryptProjectSecrets(c: Cipher, env: Option<string>, ivFor: string -> Block, data: Record)
    returns (r: Result<Record, Thrown>)
    ensures r == SealFields(c, env, ivFor, SENSITIVE_FIELDS, data)
  {
    var encrypted := data;
    for i := 0 to |SENSITIVE_FIELDS|
      invariant SealFields(c, env, ivFor, SENSITIVE_FIELDS, data) == SealFields(c, env, ivFor, SENSITIVE_FIELDS[i..], encrypted)
    {
      var field := SENSITIVE_FIELDS[i];
      assert SENSITIVE_FIELDS[i..][0] == field && SENSITIVE_FIELDS[i..][1..] == SENSITIVE_FIELDS[i + 1..];
      if NonEmptyStr(encrypted, field) {
        var e := Encrypt(c, env, ivFor(field), encrypted[field].s);
        if e.Failure? {
          return Failure(e.error);
        }
        encrypted := encrypted[field := Str(e.value)];
      }
    }
    return Success(encrypted);
  }

  /** `decryptProjectSecrets(project)`: a copy of `project` whose sensitive
      non-empty strings are opened. */
  method DecryptProjectSecrets(c: Cipher, env: Option<string>, project: Record)
    returns (r: Result<Record, Thrown>)
    ensures r == OpenFields(c, env, SENSITIVE_FIELDS, project)
  {
    var decrypted := project;
    for i := 0 to |SENSITIVE_FIELDS|
      invariant OpenFields(c, env, SENSITIVE_FIELDS, project) == OpenFields(c, env, SENSITIVE_FIELDS[i..], decrypted)
    {
      var field := SENSITIVE_FIELDS[i];
      assert SENSITIVE_FIELDS[i..][0] == field && SENSITIVE_FIELDS[i..][1..] == SENSITIVE_FIELDS[i + 1..];
      if NonEmptyStr(decrypted, field) {
        var d := Decrypt(c, env, decrypted[field].s);
        if d.Failure? {
          return Failure(d.error);
        }
        decrypted := decrypted[field := Str(d.value)];
      }
    }
    return Success(decrypted);
  }

  /** Sealing changes exactly the listed fields that hold non-empty strings,
      each to its encryption; every other property is copied. */
  lemma {:induction false} SealFieldsShape(c: Cipher, env: Option<string>, ivFor: string -> Block, fields: seq<string>, data: Record)
    requires Distinct(fields)
    requires SealFields(c, env, ivFor, fields, data).Success?
    ensures var out := SealFields(c, env, ivFor, fields, data).value;
      && out.Keys == data.Keys
      && forall k :: k in data ==>
        if k in fields && NonEmptyStr(data, k)
        then out[k].Str? && Encrypt(c, env, ivFor(k), data[k].s) == Success(out[k].s)
        else out[k] == data[k]
  {
    if fields != [] {
      var next := SealField(c, env, ivFor, fields[0], data).value;
      assert Distinct(fields[1..]);
      SealFieldsShape(c, env, ivFor, fields[1..], next);
      forall k | k in data && k in fields[1..]
        ensures NonEmptyStr(next, k) == NonEmptyStr(data, k) && (NonEmptyStr(data, k) ==> next[k] == data[k])
      {
        var j :| 0 <= j < |fields[1..]| && fields[1..][j] == k;
        assert fields[j + 1] == k;
      }
    }
  }

  /** Sealing fails exactly when some listed non-empty string cannot be sealed. */
  lemma {:induction false} SealFieldsFails(c: Cipher, env: Option<string>, ivFor: string -> Block, fields: seq<string>, data: Record)
    requires Distinct(fields)
    ensures SealFields(c, env, ivFor, fields, data).Failure? <==>
      exists k :: k in fields && NonEmptyStr(data, k) && Encrypt(c, env, ivFor(k), data[k].s).Failure?
  {
    if fields != [] {
      var f := fields[0];
      var first := SealField(c, env, ivFor, f, data);
      if first.Success? {
        var next := first.value;
        assert Distinct(fields[1..]);
        SealFieldsFails(c, env, ivFor, fields[1..], next);
        forall k | k in fields[1..]
          ensures NonEmptyStr(next, k) == NonEmptyStr(data, k) && (NonEmptyStr(data, k) ==> next[k] == data[k])
        {
          var j :| 0 <= j < |fields[1..]| && fields[1..][j] == k;
          assert fields[j + 1] == k;
        }
        assert !(NonEmptyStr(data, f) && Encrypt(c, env, ivFor(f), data[f].s).Failure?);
      }
    }
  }

  /** Opening changes exactly the listed fields that hold non-empty strings,
      each to its decryption. */
  lemma {:induction false} OpenFieldsShape(c: Cipher, env: Option<string>, fields: seq<string>, data: Record)
    requires Distinct(fields)
    requires OpenFields(c, env, fields, data).Success?
    ensures var out := OpenFields(c, env, fields, data).value;
      && out.Keys == data.Keys
      && forall k :: k in data ==>
        if k in fields && NonEmptyStr(data, k)
        then out[k].Str? && Decrypt(c, env, data[k].s) == Success(out[k].s)
        else out[k] == data[k]
  {
    if fields != [] {
      var next := OpenField(c, env, fields[0], data).value;
      assert Distinct(fields[1..]);
      OpenFieldsShape(c, env, fields[1..], next);
      forall k | k in data && k in fields[1..]
        ensures NonEmptyStr(next, k) == NonEmptyStr(data, k) && (NonEmptyStr(data, k) ==> next[k] == data[k])
      {
        var j :| 0 <= j < |fields[1..]| && fields[1..][j] == k;
        assert fields[j + 1] == k;
      }
    }
  }

  /** Opening fails only for want of a key, and only when there is something
      to open. */
  lemma {:induction false} OpenFieldsFails(c: Cipher, env: Option<string>, fields: seq<string>, data: Record)
    ensures OpenFields(c, env, fields, data).Failure? <==>
      !Truthy(env) && exists k :: k in fields && NonEmptyStr(data, k)
    ensures OpenFields(c, env, fields, data).Failure? ==> OpenFields(c, env, fields, data).error == Error(MISSING_KEY)
  {
    if fields != [] {
      var f := fields[0];
      if OpenField(c, env, f, data).Success? {
        var next := OpenField(c, env, f, data).value;
        OpenFieldsFails(c, env, fields[1..], next);
        if !Truthy(env) {
          assert next == data;
        }
      }
    }
  }

  /** Decrypting the secrets of a record whose secrets were just encrypted
      gives the original record back. */
  lemma SecretsRoundTrip(c: Cipher, env: Option<string>, ivFor: string -> Block, data: Record)
    requires Sound(c)
    requires SealFields(c, env, ivFor, SENSITIVE_FIELDS, data).Success?
    ensures OpenFields(c, env, SENSITIVE_FIELDS, SealFields(c, env, ivFor, SENSITIVE_FIELDS, data).value) == Success(data)
  {
    var out := SealFields(c, env, ivFor, SENSITIVE_FIELDS, data).value;
    SealFieldsShape(c, env, ivFor, SENSITIVE_FIELDS, data);
    SealedSecretsOpen(c, env, ivFor, data);
    OpenFieldsShape(c, env, SENSITIVE_FIELDS, out);
    RecordBack(c, env, ivFor, data, out, OpenFields(c, env, SENSITIVE_FIELDS, out).value);
  }

  /** The round trip of a whole record, from the shapes of sealing and
      opening alone. */
  lemma RecordBack(c: Cipher, env: Option<string>, ivFor: string -> Block, data: Record, out: Record, back: Record)
    requires Sound(c)
    requires out.Keys == data.Keys && back.Keys == out.Keys
    requires forall k :: k in data ==>
      if k in SENSITIVE_FIELDS && NonEmptyStr(data, k)
      then out[k].Str? && Encrypt(c, env, ivFor(k), data[k].s) == Success(out[k].s)
      else out[k] == data[k]
    requires forall k :: k in out ==>
      if k in SENSITIVE_FIELDS && NonEmptyStr(out, k)
      then back[k].Str? && Decrypt(c, env, out[k].s) == Success(back[k].s)
      else back[k] == out[k]
    ensures back == data
  {
    forall k | k in data
      ensures back[k] == data[k]
    {
      FieldBack(c, env, ivFor(k), data, out, back, k);
    }
  }

  /** What sealing produced can be opened: a stored non-empty secret means
      a key was set. */
  lemma SealedSecretsOpen(c: Cipher, env: Option<string>, ivFor: string -> Block, data: Record)
    requires SealFields(c, env, ivFor, SENSITIVE_FIELDS, data).Success?
    ensures OpenFields(c, env, SENSITIVE_FIELDS, SealFields(c, env, ivFor, SENSITIVE_FIELDS, data).value).Success?
  {
    var out := SealFields(c, env, ivFor, SENSITIVE_FIELDS, data).value;
    SealFieldsShape(c, env, ivFor, SENSITIVE_FIELDS, data);
    OpenFieldsFails(c, env, SENSITIVE_FIELDS, out);
    if exists k :: k in SENSITIVE_FIELDS && NonEmptyStr(out, k) {
      var k :| k in SENSITIVE_FIELDS && NonEmptyStr(out, k);
      assert Encrypt(c, env, ivFor(k), data[k].s).Success?;
    }
  }

  /** One field of the round trip: sealed (or copied), then opened (or
      copied), it comes back as it was. */
  lemma FieldBack(c: Cipher, env: Option<string>, iv: Block, data: Record, out: Record, back: Record, k: string)
    requires Sound(c)
    requires k in data && k in out && k in back
    requires if k in SENSITIVE_FIELDS && NonEmptyStr(data, k)
      then out[k].Str? && Encrypt(c, env, iv, data[k].s) == Success(out[k].s)
      else out[k] == data[k]
    requires if k in SENSITIVE_FIELDS && NonEmptyStr(out, k)
      then back[k].Str? && Decrypt(c, env, out[k].s) == Success(back[k].s)
      else back[k] == out[k]
    ensures back[k] == data[k]
  {
    if k in SENSITIVE_FIELDS && NonEmptyStr(data, k) {
      RoundTrip(c, env, iv, data[k].s);
    }
  }

  // ---------------------------------------------------------------------
  // findProjectByApiCredentials

  /** `project.findMany({ where: { notaifyApiKeyId } })`, in table order. */
  function WithKeyId(table: seq<Project>, apiKeyId: string): (r: seq<Project>)
    ensures forall p :: p in r <==> p in table && p.notaifyApiKeyId == Some(apiKeyId)
  {
    if table == [] then []
    else (if table[0].notaifyApiKeyId == Some(apiKeyId) then [table[0]] else []) + WithKeyId(table[1..], apiKeyId)
  }

  /** The stored secret of `p`, once decrypted, is `apiKey`. */
  predicate KeyMatches(c: Cipher, env: Option<string>, p: Project, apiKey: string) {
    Truthy(p.notaifyApiKey) && Decrypt(c, env, p.notaifyApiKey.value) == Success(apiKey)
  }

  /** The result of the `for … of` scan of `findProjectByApiCredentials`,
      which returns early: the first candidate whose decrypted secret equals
      `apiKey`, with its secrets decrypted, or the first decryption throw. */
  function FindIn(c: Cipher, env: Option<string>, candidates: seq<Project>, apiKey: string): Result<Option<Record>, Thrown> {
    if candidates == [] then Success(None)
    else
      var stored :- DecryptIfPresent(c, env, candidates[0].notaifyApiKey);
      if stored == Some(apiKey) then
        var secrets :- OpenFields(c, env, SENSITIVE_FIELDS, AsRecord(candidates[0]));
        Success(Some(secrets))
      else FindIn(c, env, candidates[1..], apiKey)
  }

  /** `findProjectByApiCredentials(apiKeyId, apiKey)` over the table `table`. */
  method FindProjectByApiCredentials(c: Cipher, env: Option<string>, table: seq<Project>, apiKeyId: string, apiKey: string)
    returns (r: Result<Option<Record>, Thrown>)
    ensures r == FindIn(c, env, WithKeyId(table, apiKeyId), apiKey)
  {
    var projects := WithKeyId(table, apiKeyId);
    for i := 0 to |projects|
      invariant FindIn(c, env, projects, apiKey) == FindIn(c, env, projects[i..], apiKey)
    {
      assert projects[i..][0] == projects[i] && projects[i..][1..] == projects[i + 1..];
      var decryptedApiKey := DecryptIfPresent(c, env, projects[i].notaifyApiKey);
      if decryptedApiKey.Failure? {
        return Failure(decryptedApiKey.error);
      }
      if decryptedApiKey.value == Some(apiKey) {
        var record := DecryptProjectSecrets(c, env, AsRecord(projects[i]));
        if record.Failure? {
          return Failure(record.error);
        }
        return Success(Some(record.value));
      }
    }
    return Success(None);
  }

  /** With a key configured the scan never throws; it yields the first
      candidate whose decrypted secret equals `apiKey`, with all its
      secrets decrypted. */
  lemma {:induction false} FindInFirstMatch(c: Cipher, env: Option<string>, candidates: seq<Project>, apiKey: string)
    requires Truthy(env)
    ensures FindIn(c, env, candidates, apiKey).Success?
    ensures FindIn(c, env, candidates, apiKey).value.Some? ==>
      exists i :: 0 <= i < |candidates| && KeyMatches(c, env, candidates[i], apiKey)
        && (forall j :: 0 <= j < i ==> !KeyMatches(c, env, candidates[j], apiKey))
        && OpenFields(c, env, SENSITIVE_FIELDS, AsRecord(candidates[i])) == Success(FindIn(c, env, candidates, apiKey).value.value)
  {
    if candidates != [] {
      OpenFieldsFails(c, env, SENSITIVE_FIELDS, AsRecord(candidates[0]));
      FindInFirstMatch(c, env, candidates[1..], apiKey);
      if !KeyMatches(c, env, candidates[0], apiKey) && FindIn(c, env, candidates, apiKey).value.Some? {
        var i :| 0 <= i < |candidates[1..]| && KeyMatches(c, env, candidates[1..][i], apiKey)
          && (forall j :: 0 <= j < i ==> !KeyMatches(c, env, candidates[1..][j], apiKey))
          && OpenFields(c, env, SENSITIVE_FIELDS, AsRecord(candidates[1..][i])) == Success(FindIn(c, env, candidates, apiKey).value.value);
        assert forall j :: 0 < j < i + 1 ==> candidates[j] == candidates[1..][j - 1];
        assert KeyMatches(c, env, candidates[i + 1], apiKey);
      } else if FindIn(c, env, candidates, apiKey).value.Some? {
        assert KeyMatches(c, env, candidates[0], apiKey);
      }
    }
  }

  /** With a key configured, "not found" means no candidate matches: an
      unknown id (no candidates), a wrong secret and a null or empty stored
      secret all give the same null. */
  lemma {:induction false} FindInNone(c: Cipher, env: Option<string>, candidates: seq<Project>, apiKey: string)
    requires Truthy(env)
    ensures FindIn(c, env, candidates, apiKey) == Success(None) <==>
      forall i :: 0 <= i < |candidates| ==> !KeyMatches(c, env, candidates[i], apiKey)
  {
    if candidates != [] {
      OpenFieldsFails(c, env, SENSITIVE_FIELDS, AsRecord(candidates[0]));
      FindInNone(c, env, candidates[1..], apiKey);
      assert forall j :: 1 <= j < |candidates| ==> candidates[j] == candidates[1..][j - 1];
    }
  }

  /** Without a key the scan throws as soon as it meets a candidate with a
      stored secret, and otherwise finds nothing. */
  lemma {:induction false} FindInWithoutKey(c: Cipher, env: Option<string>, candidates: seq<Project>, apiKey: string)
    requires !Truthy(env)
    ensures FindIn(c, env, candidates, apiKey) ==
      if exists i :: 0 <= i < |candidates| && Truthy(candidates[i].notaifyApiKey)
      then Failure(Error(MISSING_KEY)) else Success(None)
  {
    if candidates != [] {
      FindInWithoutKey(c, env, candidates[1..], apiKey);
      assert forall j :: 1 <= j < |candidates| ==> candidates[j] == candidates[1..][j - 1];
      if !Truthy(candidates[0].notaifyApiKey) && exists i :: 0 <= i < |candidates| && Truthy(candidates[i].notaifyApiKey) {
        var i :| 0 <= i < |candidates| && Truthy(candidates[i].notaifyApiKey);
        assert Truthy(candidates[1..][i - 1].notaifyApiKey);
      }
    }
  }
}
