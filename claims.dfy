/**
 * The claim payload (`signedData`) of an Identifi message, the reasons a
 * message can be refused for, the default-filling done by the convenience
 * constructors, and the two small pure helpers `isPositive` and
 * `validateJws` (src/message.js).
 *
 * JavaScript's loose values are narrowed to what the checks distinguish:
 * a string field holds "" where the payload has a falsy value (absent,
 * undefined, empty), a numeric field is None where the payload leaves it undefined or NaN, and a
 * context field is None where the payload holds no string.
 */
module Claims {
  import opened Results

  /** An author or recipient attribute as the payload carries it; a well
      formed one is the pair `[type, value]`. */
  type Entry = seq<string>

  /** The ceiling on the length of a JWS token (JWS_MAX_LENGTH). */
  const JwsMaxLength := 10000

  /** The text every validation error starts with. */
  const ErrorPrefix := "Invalid Identifi message:"

  /** The fields of a claim payload that validation and the constructors read. */
  datatype Claim = Claim(
    claimType: string,             // the payload's `type`; "" when falsy
    author: Option<seq<Entry>>,    // None when absent or falsy
    recipient: Option<seq<Entry>>,
    timestamp: string,             // "" when falsy
    context: Option<string>,       // None when not a string
    rating: Option<int>,           // None when undefined or NaN
    maxRating: Option<int>,
    minRating: Option<int>)

  /** The value passed as `signedData`: falsy, a truthy non-object, or an object. */
  datatype SignedData = Missing | Scalar | Record(claim: Claim)

  /** One kind per `throw` in the source, plus the failures that surface as
      something other than a ValidationError. */
  datatype Reason =
    | MissingSignedData
    | NotAnObject
    | MissingType
    | MissingAuthor
    | AuthorEmpty
    | InvalidAuthor(entry: Entry)
    | DuplicateKeyId
    | KeyIdMismatch
    | MissingRecipient
    | RecipientEmpty            // reported with the text of AuthorEmpty
    | InvalidRecipient(entry: Entry)
    | MissingTimestamp
    | InvalidTimestamp
    | InvalidRating
    | InvalidMaxRating
    | InvalidMinRating
    | RatingAboveMax
    | RatingBelowMin
    | MissingContext
    | TooFewRecipients
    | JwsNotString
    | JwsTooLong
    | InvalidSignature
    | InvalidHash
    | MalformedJws              // the JWS library cannot parse the token
    | HeaderMissing             // a TypeError: verify() on a message without jwsHeader
    | TokenMissing              // a TypeError: verify() on a message without jws

  /** Whether the failure is thrown as a ValidationError by src/message.js itself. */
  predicate IsValidationError(r: Reason) {
    !(r.MalformedJws? || r.HeaderMissing? || r.TokenMissing?)
  }

  predicate IsPair(e: Entry) {
    |e| == 2
  }

  /** An author entry of type `keyID`. */
  predicate IsKeyIdEntry(e: Entry) {
    |e| == 2 && e[0] == "keyID"
  }

  predicate IsRating(c: Claim) {
    c.claimType == "rating"
  }

  /** A connection or disconnection claim, which links several recipient identifiers. */
  predicate IsIdentityLink(c: Claim) {
    c.claimType == "verify_identity" || c.claimType == "unverify_identity"
  }

  /** `!Date.parse(ts)` is false: the parse gives a number other than NaN and 0. */
  predicate ParsesToDate(millis: Option<int>) {
    millis.Some? && millis.value != 0
  }

  /** `Array.prototype.toString` of an entry. */
  function Join(parts: seq<string>): (s: string)
    ensures |parts| == 0 ==> s == ""
    ensures |parts| == 1 ==> s == parts[0]
  {
    if |parts| == 0 then ""
    else if |parts| == 1 then parts[0]
    else parts[0] + "," + Join(parts[1..])
  }

  /** The parts of an entry are joined with commas: the text of two
      non-empty runs of parts is their texts with a comma between. */
  lemma {:induction false} JoinAppend(p: seq<string>, q: seq<string>)
    requires |p| > 0 && |q| > 0
    ensures Join(p + q) == Join(p) + "," + Join(q)
    decreases |p|
  {
    if |p| == 1 {
      assert (p + q)[1..] == q;
    } else {
      assert (p + q)[1..] == p[1..] + q;
      JoinAppend(p[1..], q);
    }
  }

  function Detail(r: Reason): (detail: string)
    requires IsValidationError(r)
    ensures |detail| > 0
  {
    match r
    case MissingSignedData => "Missing signedData"
    case NotAnObject => "signedData must be an object"
    case MissingType => "Missing type definition"
    case MissingAuthor => "Missing author"
    case AuthorEmpty => "Author empty"
    case InvalidAuthor(e) => "Invalid author: " + Join(e)
    case DuplicateKeyId => "Author may have only one keyID"
    case KeyIdMismatch => "If message has a keyID author, it must be signed by the same key"
    case MissingRecipient => "Missing recipient"
    case RecipientEmpty => "Author empty"
    case InvalidRecipient(e) => "Invalid recipient: " + Join(e)
    case MissingTimestamp => "Missing timestamp"
    case InvalidTimestamp => "Invalid timestamp"
    case InvalidRating => "Invalid rating"
    case InvalidMaxRating => "Invalid maxRating"
    case InvalidMinRating => "Invalid minRating"
    case RatingAboveMax => "Rating is above maxRating"
    case RatingBelowMin => "Rating is below minRating"
    case MissingContext => "Rating messages must have a context field"
    case TooFewRecipients => "At least 2 recipient attributes are needed for a connection / disconnection"
    case JwsNotString => "Message JWS must be a string"
    case JwsTooLong => "Message JWS max length is 10000"
    case InvalidSignature => "Invalid signature"
    case InvalidHash => "Invalid message hash"
  }

  /** The message of the ValidationError thrown for `r`. */
  function Text(r: Reason): (t: string)
    requires IsValidationError(r)
    ensures ErrorPrefix + " " <= t
    ensures |t| > |ErrorPrefix| + 1
  {
    ErrorPrefix + " " + Detail(r)
  }

  /** An empty recipient list is reported with the same words as an empty author list. */
  lemma RecipientEmptySharesAuthorText()
    ensures Text(RecipientEmpty) == Text(AuthorEmpty)
    ensures RecipientEmpty != AuthorEmpty
  {
  }

  /** `isPositive()`: the rating lies strictly above the middle of its scale.
      A missing number makes JavaScript's comparison false. */
  function IsPositive(c: Claim): (positive: bool)
    ensures positive <==>
      && c.rating.Some? && c.maxRating.Some? && c.minRating.Some?
      && (c.rating.value as real) > ((c.maxRating.value + c.minRating.value) as real) / 2.0
  {
    match (c.rating, c.maxRating, c.minRating)
    case (Some(r), Some(hi), Some(lo)) => 2 * r > hi + lo
    case _ => false
  }

  /** A rating exactly at the midpoint of its scale is not positive. */
  lemma MidpointIsNotPositive(c: Claim)
    requires c.rating.Some? && c.maxRating.Some? && c.minRating.Some?
    requires 2 * c.rating.value == c.maxRating.value + c.minRating.value
    ensures !IsPositive(c)
  {
  }

  /** The number of UTF-16 code units of `c`: two for a character outside
      the Basic Multilingual Plane, one otherwise. */
  function CodeUnits(c: char): nat {
    if c as int >= 0x1_0000 then 2 else 1
  }

  /** JavaScript's `length` of a string, which counts UTF-16 code units. */
  function Utf16Length(s: string): (n: nat)
    ensures |s| <= n <= 2 * |s|
  {
    if |s| == 0 then 0 else CodeUnits(s[0]) + Utf16Length(s[1..])
  }

  /** On text inside the Basic Multilingual Plane (the ASCII of a compact
      JWS token among it) the JavaScript length is the number of characters. */
  lemma {:induction false} Utf16LengthOfBmp(s: string)
    requires forall i | 0 <= i < |s| :: s[i] as int < 0x1_0000
    ensures Utf16Length(s) == |s|
  {
    if |s| > 0 {
      assert forall i | 0 <= i < |s[1..]| :: s[1..][i] == s[i + 1];
      Utf16LengthOfBmp(s[1..]);
    }
  }

  /** `validateJws`: the token must be a string (`token` is None otherwise)
      whose JavaScript length is at most JwsMaxLength. */
  function ValidateJws(token: Option<string>): (r: Result<bool, Reason>)
    ensures r == Ok(true) <==> token.Some? && Utf16Length(token.value) <= JwsMaxLength
    ensures r.Err? ==> r.error == (if token.None? then JwsNotString else JwsTooLong)
    ensures r != Ok(false)
  {
    match token
    case None => Err(JwsNotString)
    case Some(s) => if Utf16Length(s) > JwsMaxLength then Err(JwsTooLong) else Ok(true)
  }

  /** A string of 5001 characters outside the Basic Multilingual Plane has
      JavaScript length 10002 and is refused. */
  lemma AstralTokenTooLong(s: string)
    requires |s| == 5001 && forall i | 0 <= i < |s| :: s[i] as int >= 0x1_0000
    ensures ValidateJws(Some(s)) == Err(JwsTooLong)
  {
    AstralLength(s);
  }

  lemma {:induction false} AstralLength(s: string)
    requires forall i | 0 <= i < |s| :: s[i] as int >= 0x1_0000
    ensures Utf16Length(s) == 2 * |s|
  {
    if |s| > 0 {
      assert forall i | 0 <= i < |s[1..]| :: s[1..][i] == s[i + 1];
      AstralLength(s[1..]);
    }
  }

  /** JavaScript `v || fallback` on a numeric field: undefined and 0 are falsy. */
  function OrNumber(v: Option<int>, fallback: int): (r: Option<int>)
    ensures r.Some?
    ensures v.Some? && v.value != 0 ==> r == v
    ensures v.None? || v.value == 0 ==> r == Some(fallback)
  {
    if v.Some? && v.value != 0 then v else Some(fallback)
  }

  /** What `create` writes into the payload before validating it: a timestamp
      from the clock when none is given, and the context "identifi" when no
      non-empty string is given. */
  function WithDefaults(c: Claim, now: string): (r: Claim)
    ensures r.timestamp == (if c.timestamp != "" then c.timestamp else now)
    ensures r.context.Some? && r.context.value != ""
    ensures c.context.Some? && c.context.value != "" ==> r.context == c.context
    ensures c.context.None? || c.context.value == "" ==> r.context == Some("identifi")
    ensures r.claimType == c.claimType && r.author == c.author && r.recipient == c.recipient
    ensures r.rating == c.rating && r.maxRating == c.maxRating && r.minRating == c.minRating
  {
    c.(timestamp := if c.timestamp != "" then c.timestamp else now,
       context := if c.context.Some? && c.context.value != "" then c.context else Some("identifi"))
  }

  /** What `createRating` and `createVerification` write into the payload
      before calling `create`: the type "rating" and the scale -10..10 for
      each bound that is missing or 0. */
  function WithRatingDefaults(c: Claim): (r: Claim)
    ensures IsRating(r)
    ensures r.maxRating.Some? && r.maxRating.value != 0
    ensures r.minRating.Some? && r.minRating.value != 0
    ensures c.maxRating.Some? && c.maxRating.value != 0 ==> r.maxRating == c.maxRating
    ensures c.minRating.Some? && c.minRating.value != 0 ==> r.minRating == c.minRating
    ensures c.maxRating.None? || c.maxRating.value == 0 ==> r.maxRating == Some(10)
    ensures c.minRating.None? || c.minRating.value == 0 ==> r.minRating == Some(-10)
    ensures r.author == c.author && r.recipient == c.recipient && r.timestamp == c.timestamp
    ensures r.context == c.context && r.rating == c.rating
  {
    c.(claimType := "rating",
       maxRating := OrNumber(c.maxRating, 10),
       minRating := OrNumber(c.minRating, -10))
  }

  /** A supplied lower bound of 0 is replaced by -10, so a 0..n scale cannot be
      requested through createRating. */
  lemma ZeroMinimumIsReplaced(c: Claim)
    requires c.minRating == Some(0)
    ensures WithRatingDefaults(c).minRating == Some(-10)
  {
  }
}
