/** `POST /api/generateApiKey`: a fresh Notaify key pair for a project. The
    request body is not read; the two `crypto.randomBytes` calls (bytes or a
    throw) and `Date.now()` are the only inputs. */
module GenerateApiKeyRoute {
  import opened Wrappers
  import opened Js
  import ApiKeys

  /** `{ apiKeyId, apiKey }` with status 200, or `{ error }` with status 500. */
  datatype KeyReply = Issued(apiKeyId: string, apiKey: string) | Refused(error: string)

  const PAIR_PREFIX := "nty_"
  const REFUSED := "Failed to generate API key: "
  const ID_BYTES: nat := 3
  const SECRET_BYTES: nat := 7

  function Status(reply: KeyReply): nat {
    if reply.Issued? then 200 else 500
  }

  function Refusal(failure: Thrown): KeyReply {
    Refused(REFUSED + ErrorMessageOr(failure, "Unknown error"))
  }

  /** The handler. The identifier's bytes are drawn first, then the secret's. */
  function Post(now: nat, idBytes: Result<seq<byte>, Thrown>, secretBytes: Result<seq<byte>, Thrown>): (reply: KeyReply)
    requires idBytes.Success? ==> |idBytes.value| == ID_BYTES
    requires secretBytes.Success? ==> |secretBytes.value| == SECRET_BYTES
    ensures idBytes.Failure? ==> reply == Refusal(idBytes.error)
    ensures idBytes.Success? && secretBytes.Failure? ==> reply == Refusal(secretBytes.error)
    ensures reply.Refused? ==> |reply.error| >= |REFUSED| && reply.error[..|REFUSED|] == REFUSED
  {
    match idBytes
    case Failure(failure) => Refusal(failure)
    case Success(randomPart1) =>
      var apiKeyId := PAIR_PREFIX + Hex(randomPart1) + "_" + ApiKeys.TimestampSuffix(now);
      match secretBytes
      case Failure(failure) => Refusal(failure)
      case Success(randomPart2) => Issued(apiKeyId, PAIR_PREFIX + Hex(randomPart2))
  }

  /** The issued pair: an 18-character secret `nty_` + 14 hex digits that
      decode to the secret's bytes and contain no `:` (so it is never taken
      for an encrypted value), and an identifier that splits on `_` into
      `nty`, six hex digits and the clock's last six decimal digits. */
  lemma IssuedPairShape(now: nat, id: seq<byte>, secret: seq<byte>)
    requires |id| == ID_BYTES && |secret| == SECRET_BYTES
    ensures var reply := Post(now, Success(id), Success(secret));
      && reply.Issued? && Status(reply) == 200
      && |reply.apiKey| == 18 && reply.apiKey[..4] == PAIR_PREFIX
      && Unhex(reply.apiKey[4..]) == secret
      && Count(reply.apiKey, ':') == 0
      && Split(reply.apiKeyId, '_') == ["nty", Hex(id), ApiKeys.TimestampSuffix(now)]
      && |Split(reply.apiKeyId, '_')[1]| == 6
      && (now >= 100000 ==> |reply.apiKeyId| == 17)
  {
    var reply := Post(now, Success(id), Success(secret));
    assert reply == Issued(PAIR_PREFIX + Hex(id) + "_" + ApiKeys.TimestampSuffix(now), PAIR_PREFIX + Hex(secret));
    SecretShape(secret);
    IdShape(id, now);
  }

  lemma SecretShape(secret: seq<byte>)
    requires |secret| == SECRET_BYTES
    ensures var key := PAIR_PREFIX + Hex(secret);
      |key| == 18 && key[..4] == PAIR_PREFIX && Unhex(key[4..]) == secret && Count(key, ':') == 0
  {
    var key := PAIR_PREFIX + Hex(secret);
    assert key[4..] == Hex(secret);
    UnhexHex(secret);
    assert forall i :: 0 <= i < |key| ==> key[i] != ':';
    CountAbsent(key, ':');
  }

  lemma IdShape(id: seq<byte>, now: nat)
    requires |id| == ID_BYTES
    ensures var ts := ApiKeys.TimestampSuffix(now);
      var keyId := PAIR_PREFIX + Hex(id) + "_" + ts;
      && Split(keyId, '_') == ["nty", Hex(id), ts]
      && |Hex(id)| == 6
      && (now >= 100000 ==> |keyId| == 17)
  {
    var ts := ApiKeys.TimestampSuffix(now);
    assert forall i :: 0 <= i < |Hex(id)| ==> Hex(id)[i] != '_';
    assert forall i :: 0 <= i < |ts| ==> ts[i] != '_';
    assert PAIR_PREFIX == "nty" + ['_'];
    assert '_' !in "nty";
    SplitThree("nty", Hex(id), ts, '_');
  }
}
