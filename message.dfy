/**
 * The `Message` class of src/message.js: the payload object it wraps, the
 * default-filling constructors, validation with its side effect on
 * `signerKeyHash`, and the bookkeeping of `jwsHeader`, `jws` and `hash`
 * across `sign`, `fromJws` and `verify`.
 *
 * The cryptographic library, JSON serialisation, SHA-256 and the date
 * parser are not modelled; they reach the model as the functions of a
 * `Platform` value, about which nothing is assumed unless a method says so.
 */
module Messages {
  import opened Results
  import opened Claims
  import opened ClaimRules

  /** The signing algorithm `sign` puts in the header. */
  const Algorithm := "ES256"

  /** The JWS header `{alg, key}`; `key` is the signer's public key in hex ASN.1. */
  datatype Header = Header(alg: string, key: string)

  /** A signing key: its public part as `pubKeyASN1` and an opaque private part. */
  datatype SigningKey = SigningKey(pubKeyASN1: string, secret: string)

  /** What `jws.JWS.parse` returns: `headerObj` and `payloadObj`. */
  datatype ParsedJws = ParsedJws(header: Header, payload: SignedData)

  /** The external functions the class calls. */
  datatype Platform = Platform(
    keyHash: string -> string,                           // util.getHash, on key material
    tokenHash: string -> string,                         // Message.getHash: base64 of SHA-256
    dateParse: DateParser,                               // Date.parse
    jwsSign: (Header, SignedData, SigningKey) -> string, // jws.JWS.sign over the JSON of header and payload
    jwsVerify: (string, string, string) -> bool,         // jws.JWS.verify(token, public key, [alg])
    jwsParse: string -> Option<ParsedJws>)               // jws.JWS.parse; None when it throws

  /** The payload object a caller passes in; the constructors write to it in place. */
  class ClaimData {
    var claimType: string
    var author: Option<seq<Entry>>
    var recipient: Option<seq<Entry>>
    var timestamp: string
    var context: Option<string>
    var rating: Option<int>
    var maxRating: Option<int>
    var minRating: Option<int>

    function Value(): Claim
      reads this
    {
      Claim(claimType, author, recipient, timestamp, context, rating, maxRating, minRating)
    }

    constructor (c: Claim)
      ensures Value() == c
    {
      claimType, author, recipient, timestamp := c.claimType, c.author, c.recipient, c.timestamp;
      context, rating, maxRating, minRating := c.context, c.rating, c.maxRating, c.minRating;
    }
  }

  /** The `signedData` field: a falsy value, a truthy non-object, or an object. */
  datatype DataRef = NoData | ScalarData | ObjectData(obj: ClaimData)

  function Objects(d: DataRef): set<object> {
    if d.ObjectData? then {d.obj} else {}
  }

  /** The payload value `d` currently refers to. */
  function DataValue(d: DataRef): SignedData
    reads Objects(d)
  {
    match d
    case NoData => Missing
    case ScalarData => Scalar
    case ObjectData(o) => Record(o.Value())
  }

  /** A fresh object holding `v`, as JSON parsing produces one. */
  method Materialize(v: SignedData) returns (d: DataRef)
    ensures fresh(Objects(d)) && DataValue(d) == v
  {
    match v
    case Missing => d := NoData;
    case Scalar => d := ScalarData;
    case Record(c) =>
      var o := new ClaimData(c);
      d := ObjectData(o);
  }

  /** What `fromJws` does with a token before building the message: the
      parsed header and payload, or the reason it throws. */
  function FromJwsOutcome(token: Option<string>, p: Platform): (r: Result<ParsedJws, Reason>)
    ensures token.None? ==> r == Err(JwsNotString)
    ensures token.Some? && Utf16Length(token.value) > JwsMaxLength ==> r == Err(JwsTooLong)
    ensures token.Some? && Utf16Length(token.value) <= JwsMaxLength ==>
      match p.jwsParse(token.value)
      case None => r == Err(MalformedJws)
      case Some(parsed) =>
        var v := ValidationResult(parsed.payload, "", p.dateParse);
        && (r.Ok? <==> v == Ok(true))
        && (r.Ok? ==> r.value == parsed)
        && (r.Err? ==> v.Err? && r.error == v.error)
  {
    var checked := ValidateJws(token);
    if checked.Err? then Err(checked.error)
    else
      var parsed := p.jwsParse(token.value);
      if parsed.None? then Err(MalformedJws)
      else
        var v := ValidationResult(parsed.value.payload, "", p.dateParse);
        if v.Err? then Err(v.error) else Ok(parsed.value)
  }

  class Message {
    var signedData: DataRef
    var jwsHeader: Option<Header>
    var jws: Option<string>
    var hash: string           // "" while no hash is recorded
    var signerKeyHash: string  // "" while unset

    /** The payload value. */
    function Data(): SignedData
      reads this, Objects(signedData)
    {
      DataValue(signedData)
    }

    /** A present header and token whose signature the JWS library accepts. */
    predicate SignatureChecks(p: Platform)
      reads this
    {
      jwsHeader.Some? && jws.Some? && p.jwsVerify(jws.value, jwsHeader.value.key, jwsHeader.value.alg)
    }

    /** The object the JavaScript constructor allocates, before it validates. */
    constructor (data: DataRef)
      ensures signedData == data && jwsHeader == None && jws == None
      ensures hash == "" && signerKeyHash == ""
    {
      signedData, jwsHeader, jws, hash, signerKeyHash := data, None, None, "", "";
    }

    /** `new Message(signedData)`: allocate, then validate with no header attached. */
    static method New(data: DataRef, p: Platform) returns (r: Result<Message, Reason>)
      ensures r.Ok? <==> ValidationResult(DataValue(data), "", p.dateParse) == Ok(true)
      ensures r.Err? ==> r.error == ValidationResult(DataValue(data), "", p.dateParse).error
      ensures r.Ok? ==> fresh(r.value) && r.value.signedData == data
      ensures r.Ok? ==> r.value.jwsHeader == None && r.value.jws == None
      ensures r.Ok? ==> r.value.hash == "" && r.value.signerKeyHash == ""
    {
      var m := new Message(data);
      var v := m.Validate(p);
      if v.Err? {
        r := Err(v.error);
      } else {
        r := Ok(m);
      }
    }

    /** `getSignerKeyHash()`. */
    function SignerKeyHash(p: Platform): (h: string)
      requires jwsHeader.Some?
      reads this
      ensures h == p.keyHash(jwsHeader.value.key)
    {
      p.keyHash(jwsHeader.value.key)
    }

    /** `validate()`: the checks of ValidationResult, in source order. Once
        the author list is found non-empty and a header is attached, it
        records the header key's hash in `signerKeyHash` and checks keyID
        authors against it; otherwise `signerKeyHash` keeps its value. */
    method Validate(p: Platform) returns (r: Result<bool, Reason>)
      modifies this`signerKeyHash
      ensures signerKeyHash ==
        if ReachesSignerStep(Data()) && jwsHeader.Some? then p.keyHash(jwsHeader.value.key)
        else old(signerKeyHash)
      ensures r == ValidationResult(Data(), signerKeyHash, p.dateParse)
    {
      if signedData.NoData? { return Err(MissingSignedData); }
      if signedData.ScalarData? { return Err(NotAnObject); }
      var c := signedData.obj.Value();
      if c.claimType == "" { return Err(MissingType); }
      if c.author.None? { return Err(MissingAuthor); }
      if |c.author.value| == 0 { return Err(AuthorEmpty); }
      if jwsHeader.Some? {
        signerKeyHash := SignerKeyHash(p);
      }
      r := CheckClaim(c, signerKeyHash, p.dateParse);
    }

    /** `Message.create`: fill in the timestamp from the clock reading `now`
        and the default context, in the caller's object, then construct. */
    static method Create(d: ClaimData, now: string, p: Platform) returns (r: Result<Message, Reason>)
      modifies d
      ensures d.Value() == WithDefaults(old(d.Value()), now)
      ensures r.Ok? <==> ValidationResult(Record(d.Value()), "", p.dateParse) == Ok(true)
      ensures r.Err? ==> r.error == ValidationResult(Record(d.Value()), "", p.dateParse).error
      ensures r.Ok? ==> fresh(r.value) && r.value.signedData == ObjectData(d)
      ensures r.Ok? ==> r.value.jwsHeader == None && r.value.jws == None && r.value.hash == ""
      ensures r.Ok? ==> r.value.signerKeyHash == ""
    {
      d.timestamp := if d.timestamp != "" then d.timestamp else now;
      d.context := if d.context.Some? && d.context.value != "" then d.context else Some("identifi");
      r := New(ObjectData(d), p);
    }

    /** `Message.createRating`: make the claim a rating on the default scale
        where a bound is missing or 0, then `create`. */
    static method CreateRating(d: ClaimData, now: string, p: Platform) returns (r: Result<Message, Reason>)
      modifies d
      ensures d.Value() == WithDefaults(WithRatingDefaults(old(d.Value())), now)
      ensures r.Ok? <==> ValidationResult(Record(d.Value()), "", p.dateParse) == Ok(true)
      ensures r.Err? ==> r.error == ValidationResult(Record(d.Value()), "", p.dateParse).error
      ensures r.Ok? ==> fresh(r.value) && r.value.signedData == ObjectData(d)
      ensures r.Ok? ==> r.value.jwsHeader == None && r.value.jws == None && r.value.hash == ""
      ensures r.Ok? ==> r.value.signerKeyHash == ""
    {
      d.claimType := "rating";
      d.maxRating := OrNumber(d.maxRating, 10);
      d.minRating := OrNumber(d.minRating, -10);
      r := Create(d, now, p);
    }

    /** `Message.createVerification`: its body is that of `createRating`, so
        it too produces a rating claim. */
    static method CreateVerification(d: ClaimData, now: string, p: Platform) returns (r: Result<Message, Reason>)
      modifies d
      ensures d.Value() == WithDefaults(WithRatingDefaults(old(d.Value())), now)
      ensures IsRating(d.Value())
      ensures r.Ok? <==> ValidationResult(Record(d.Value()), "", p.dateParse) == Ok(true)
      ensures r.Err? ==> r.error == ValidationResult(Record(d.Value()), "", p.dateParse).error
      ensures r.Ok? ==> fresh(r.value) && r.value.signedData == ObjectData(d)
      ensures r.Ok? ==> r.value.jwsHeader == None && r.value.jws == None && r.value.hash == ""
      ensures r.Ok? ==> r.value.signerKeyHash == ""
    {
      r := CreateRating(d, now, p);
    }

    /** `sign(key, skipValidation)`: attach the ES256 header and the token,
        check the token's length unless told not to, and record its hash.
        The payload is not validated again. On a too-long token the header
        and token stay attached and the hash is not touched. */
    method Sign(key: SigningKey, skipValidation: bool, p: Platform) returns (r: Result<Message, Reason>)
      modifies this`jwsHeader, this`jws, this`hash
      ensures jwsHeader == Some(Header(Algorithm, key.pubKeyASN1))
      ensures jws == Some(p.jwsSign(Header(Algorithm, key.pubKeyASN1), Data(), key))
      ensures r.Ok? <==> skipValidation || Utf16Length(jws.value) <= JwsMaxLength
      ensures r.Ok? ==> r.value == this && hash == p.tokenHash(jws.value)
      ensures r.Err? ==> r.error == JwsTooLong && hash == old(hash)
    {
      jwsHeader := Some(Header(Algorithm, key.pubKeyASN1));
      var token := p.jwsSign(jwsHeader.value, Data(), key);
      jws := Some(token);
      if !skipValidation {
        var checked := ValidateJws(jws);
        if checked.Err? { return Err(checked.error); }
      }
      hash := p.tokenHash(token);
      return Ok(this);
    }

    /** `Message.fromJws`: check the token, parse it, construct a message
        from the payload (validated while no header is attached, so keyID
        authors are not checked against the signer), then record the hash
        and the header. The token itself is not stored. */
    static method FromJws(token: Option<string>, p: Platform) returns (r: Result<Message, Reason>)
      ensures r.Ok? <==> FromJwsOutcome(token, p).Ok?
      ensures r.Err? ==> r.error == FromJwsOutcome(token, p).error
      ensures r.Ok? ==> fresh(r.value) && fresh(Objects(r.value.signedData))
      ensures r.Ok? ==>
        var parsed := FromJwsOutcome(token, p).value;
        && r.value.Data() == parsed.payload
        && r.value.jwsHeader == Some(parsed.header)
        && r.value.jws == None
        && r.value.hash == p.tokenHash(token.value)
        && r.value.signerKeyHash == ""
    {
      var checked := ValidateJws(token);
      if checked.Err? { return Err(checked.error); }
      var parsed := p.jwsParse(token.value);
      if parsed.None? { return Err(MalformedJws); }
      var data := Materialize(parsed.value.payload);
      var created := New(data, p);
      if created.Err? { return Err(created.error); }
      var msg := created.value;
      msg.hash := p.tokenHash(token.value);
      msg.jwsHeader := Some(parsed.value.header);
      return Ok(msg);
    }

    /** `fromJws` as evidently intended: the same, but the parsed message
        also keeps the token, so that `verify` can check it. */
    static method FromJwsKeepingToken(token: Option<string>, p: Platform) returns (r: Result<Message, Reason>)
      ensures r.Ok? <==> FromJwsOutcome(token, p).Ok?
      ensures r.Err? ==> r.error == FromJwsOutcome(token, p).error
      ensures r.Ok? ==> fresh(r.value) && fresh(Objects(r.value.signedData))
      ensures r.Ok? ==>
        var parsed := FromJwsOutcome(token, p).value;
        && r.value.Data() == parsed.payload
        && r.value.jwsHeader == Some(parsed.header)
        && r.value.jws == token
        && r.value.hash == p.tokenHash(token.value)
        && r.value.signerKeyHash == ""
    {
      r := FromJws(token, p);
      if r.Ok? {
        r.value.jws := token;
      }
    }

    /** `verify()`: check the signature, then compare the recorded hash with
        the token's, or record it when none was. Reading the header key of a
        message without a header, or verifying a message without a token,
        throws a TypeError. The payload is not looked at. */
    method Verify(p: Platform) returns (r: Result<bool, Reason>)
      modifies this`hash
      ensures jwsHeader.None? ==> r == Err(HeaderMissing)
      ensures jwsHeader.Some? && jws.None? ==> r == Err(TokenMissing)
      ensures jwsHeader.Some? && jws.Some? && !SignatureChecks(p) ==> r == Err(InvalidSignature)
      ensures SignatureChecks(p) && old(hash) != "" && old(hash) != p.tokenHash(jws.value) ==>
        r == Err(InvalidHash)
      ensures SignatureChecks(p) && (old(hash) == "" || old(hash) == p.tokenHash(jws.value)) ==>
        r == Ok(true)
      ensures hash == if SignatureChecks(p) && old(hash) == "" then p.tokenHash(jws.value) else old(hash)
    {
      if jwsHeader.None? { return Err(HeaderMissing); }
      if jws.None? { return Err(TokenMissing); }
      if !p.jwsVerify(jws.value, jwsHeader.value.key, jwsHeader.value.alg) {
        return Err(InvalidSignature);
      }
      if hash != "" {
        if hash != p.tokenHash(jws.value) { return Err(InvalidHash); }
      } else {
        hash := p.tokenHash(jws.value);
      }
      return Ok(true);
    }
  }

  // -----------------------------------------------------------------------
  // What callers can conclude from the contracts above
  // -----------------------------------------------------------------------

  /** A message signed with a key whose signatures the JWS library accepts
      verifies, and keeps the hash that `sign` recorded. */
  method SignThenVerify(m: Message, key: SigningKey, p: Platform)
    returns (signed: Result<Message, Reason>, verified: Result<bool, Reason>)
    requires p.jwsVerify(p.jwsSign(Header(Algorithm, key.pubKeyASN1), m.Data(), key), key.pubKeyASN1, Algorithm)
    modifies m
    ensures signed.Ok? ==> verified == Ok(true)
    ensures signed.Ok? ==> m.jws.Some? && m.hash == p.tokenHash(m.jws.value)
  {
    signed := m.Sign(key, false, p);
    if signed.Err? {
      verified := Err(signed.error);
      return;
    }
    verified := m.Verify(p);
  }

  /** The checks of `validate()` that follow the signer step, from the
      author loop to the identity-link rule, on a claim whose type is set
      and whose author list is non-empty. */
  method CheckClaim(c: Claim, signer: string, parse: DateParser) returns (r: Result<bool, Reason>)
    requires c.claimType != "" && c.author.Some? && |c.author.value| > 0
    ensures r == ValidationResult(Record(c), signer, parse)
  {
    var authorFault := CheckAuthors(c.author.value, signer);
    if authorFault.Some? { return Err(authorFault.value); }
    if c.recipient.None? { return Err(MissingRecipient); }
    var recipients := c.recipient.value;
    if |recipients| == 0 { return Err(RecipientEmpty); }
    var k := FindNonPair(recipients);
    if k < |recipients| { return Err(InvalidRecipient(recipients[k])); }
    if c.timestamp == "" { return Err(MissingTimestamp); }
    if !ParsesToDate(parse(c.timestamp)) { return Err(InvalidTimestamp); }
    if c.claimType == "rating" {
      if c.rating.None? { return Err(InvalidRating); }
      if c.maxRating.None? { return Err(InvalidMaxRating); }
      if c.minRating.None? { return Err(InvalidMinRating); }
      if c.rating.value > c.maxRating.value { return Err(RatingAboveMax); }
      if c.rating.value < c.minRating.value { return Err(RatingBelowMin); }
      if c.context.None? || c.context.value == "" { return Err(MissingContext); }
    }
    if c.claimType == "verify_identity" || c.claimType == "unverify_identity" {
      if |recipients| < 2 { return Err(TooFewRecipients); }
    }
    return Ok(true);
  }

  /** The author loop of `validate()`: each entry must be a pair, at most one
      keyID author may be recorded (the recorded value is tested for
      truthiness), and with a signer key hash every keyID author must name it.
      The first broken test is reported. */
  method CheckAuthors(authors: seq<Entry>, signer: string) returns (fault: Option<Reason>)
    ensures fault == ScanAuthors(authors, 0, "", signer)
  {
    var i := 0;
    var authorKeyId := "";
    while i < |authors|
      invariant 0 <= i <= |authors|
      invariant ScanAuthors(authors, i, authorKeyId, signer) == ScanAuthors(authors, 0, "", signer)
    {
      if |authors[i]| != 2 { return Some(InvalidAuthor(authors[i])); }
      if authors[i][0] == "keyID" {
        if authorKeyId != "" {
          return Some(DuplicateKeyId);
        } else {
          authorKeyId := authors[i][1];
        }
        if signer != "" && authorKeyId != signer { return Some(KeyIdMismatch); }
      }
      i := i + 1;
    }
    return None;
  }

  /** The recipient loop of `validate()`: the position of the first entry
      that is not a pair, or the length of the list when there is none. */
  method FindNonPair(recipients: seq<Entry>) returns (k: nat)
    ensures k == FirstNonPair(recipients)
  {
    k := 0;
    while k < |recipients|
      invariant 0 <= k <= |recipients|
      invariant forall j | 0 <= j < k :: IsPair(recipients[j])
    {
      if |recipients[k]| != 2 { return; }
      k := k + 1;
    }
  }

  /** A message that `create` accepted passes `validate()` when it is called
      on it again, and that call leaves the signer key hash unset. */
  method CreateThenValidate(d: ClaimData, now: string, p: Platform)
    returns (r: Result<Message, Reason>, revalidated: Option<Result<bool, Reason>>)
    modifies d
    ensures r.Ok? <==> revalidated.Some?
    ensures revalidated.Some? ==> revalidated.value == Ok(true) && r.value.signerKeyHash == ""
  {
    r := Message.Create(d, now, p);
    revalidated := None;
    if r.Ok? {
      var v := r.value.Validate(p);
      revalidated := Some(v);
    }
  }

  /** Verifying a second time gives the same answer and leaves the hash the
      first call left. */
  method VerifyTwice(m: Message, p: Platform)
    returns (first: Result<bool, Reason>, second: Result<bool, Reason>, ghost hashAfterFirst: string)
    modifies m
    ensures second == first
    ensures m.hash == hashAfterFirst
  {
    first := m.Verify(p);
    hashAfterFirst := m.hash;
    second := m.Verify(p);
  }

  /** Validating an unchanged message a second time gives the same answer
      and leaves the signer key hash the first call left. */
  method ValidateTwice(m: Message, p: Platform)
    returns (first: Result<bool, Reason>, second: Result<bool, Reason>, ghost keyHashAfterFirst: string)
    modifies m
    ensures second == first
    ensures m.signerKeyHash == keyHashAfterFirst
  {
    first := m.Validate(p);
    keyHashAfterFirst := m.signerKeyHash;
    second := m.Validate(p);
  }

  /** Because `fromJws` does not store the token, a parsed message can never
      be verified: `verify` fails with a TypeError once the library has read
      the header key, and with the key conversion's own error before that. */
  method ParsedMessageCannotVerify(token: Option<string>, p: Platform)
    returns (r: Result<Message, Reason>, verified: Result<bool, Reason>)
    ensures r.Ok? <==> FromJwsOutcome(token, p).Ok?
    ensures r.Ok? ==> verified == Err(TokenMissing)
  {
    r := Message.FromJws(token, p);
    if r.Ok? {
      verified := r.value.Verify(p);
    } else {
      verified := Err(r.error);
    }
  }

  /** With the token kept, a token produced by `sign` parses back to a
      message with the same payload and hash, and that message verifies,
      given that the JWS library parses its own tokens back and accepts
      their signatures. */
  method SignedTokenRoundTrip(m: Message, key: SigningKey, p: Platform)
    returns (signed: Result<Message, Reason>, parsed: Result<Message, Reason>, verified: Result<bool, Reason>)
    requires ValidationResult(m.Data(), "", p.dateParse) == Ok(true)
    requires var h := Header(Algorithm, key.pubKeyASN1);
      var t := p.jwsSign(h, m.Data(), key);
      p.jwsParse(t) == Some(ParsedJws(h, m.Data())) && p.jwsVerify(t, key.pubKeyASN1, Algorithm)
    modifies m
    ensures signed.Ok? ==> parsed.Ok? && verified == Ok(true)
    ensures signed.Ok? && parsed.Ok? ==> parsed.value.Data() == m.Data() && parsed.value.hash == m.hash
  {
    signed := m.Sign(key, false, p);
    if signed.Err? {
      parsed, verified := Err(signed.error), Err(signed.error);
      return;
    }
    parsed := Message.FromJwsKeepingToken(m.jws, p);
    verified := parsed.value.Verify(p);
  }

  /** `verify` looks only at the token and the recorded hash: editing the
      payload object after signing does not make it fail. */
  method VerifyIgnoresPayloadEdits(m: Message, key: SigningKey, p: Platform, others: seq<Entry>)
    returns (signed: Result<Message, Reason>, verified: Result<bool, Reason>)
    requires m.signedData.ObjectData?
    requires p.jwsVerify(p.jwsSign(Header(Algorithm, key.pubKeyASN1), m.Data(), key), key.pubKeyASN1, Algorithm)
    modifies m, Objects(m.signedData)
    ensures signed.Ok? ==> verified == Ok(true)
    ensures signed.Ok? ==> m.signedData.ObjectData? && m.signedData.obj.recipient == Some(others)
  {
    signed := m.Sign(key, false, p);
    if signed.Err? {
      verified := Err(signed.error);
      return;
    }
    m.signedData.obj.recipient := Some(others);
    verified := m.Verify(p);
  }
}
