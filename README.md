# Identifi signed messages in Dafny

A model of the `Message` class of iris-lib (`src/message.js`): the claim
payload a message wraps (`signedData`), the ordered structural checks of
`validate()`, the default-filling constructors `create`, `createRating` and
`createVerification`, the helpers `isPositive` and `validateJws`, and the
bookkeeping of the fields `jwsHeader`, `jws`, `hash` and `signerKeyHash`
across `sign`, `fromJws` and `verify`.

Layout:

- `results.dfy` — `Option` and `Result` (a call that returns or throws).
- `claims.dfy` — module `Claims`: the payload as a value (`Claim`,
  `SignedData`), one `Reason` per `throw`, the error texts, `isPositive`,
  `validateJws`, and the defaults the constructors write.
- `rules.dfy` — module `ClaimRules`: `ValidationResult`, the outcome of
  `validate()` as a function, and a table of eighteen rules in source order,
  with the lemmas that `validate()` reports the first broken rule.
- `message.dfy` — module `Messages`: the payload object (`ClaimData`) and
  the `Message` class. `validate()` is a method proved equal to `ValidationResult`.
  Its checks after the signer step are the method `CheckClaim`, and the
  source's two loops are the methods `CheckAuthors` and `FindNonPair`. Also the default-filling constructors,
  `sign`, `fromJws` and `verify`, and client methods that derive
  consequences from their contracts.

JavaScript values are narrowed to what the checks tell apart. A string
field holds "" where the payload is falsy. A numeric field is `None` where
the payload leaves it undefined or NaN, and `Some(n)` where it holds the
integer `n`. `context` is `None` where it is not a string. The external
functions reach the model through the `Platform` record: JWS signing,
verifying and parsing, `util.getHash`, `Message.getHash` and `Date.parse`.
Nothing is assumed about them unless a method's `requires` says so. The
wall-clock reading used by `create` is a parameter, `now`.

Some behaviours of the code that a reader of the messages might not
expect, all of which the model keeps:

- Nothing re-runs validation when a header is attached. `sign` never
  validates the payload. `fromJws` validates while no header is attached.
  So the keyID check against the signer fires only when `validate()` is
  called on a message that already has a header.
- `validate()` writes `signerKeyHash` before the author loop. It can then
  still throw, so a failed validation can leave that field changed.
- The duplicate-keyID test checks whether the keyID recorded so far is
  truthy. A first keyID author with the empty value therefore does not
  stop a second one (`EmptyKeyIdDoesNotBlockSecond`).
- `!Date.parse(ts)` also rejects the epoch, which parses to 0
  (`EpochTimestampRejected`).
- `createVerification` has the same body as `createRating`, so it builds
  a rating claim.
- The `||` defaults replace a supplied bound of 0 (`ZeroMinimumIsReplaced`).
- `verify` never reads the payload. Editing it after signing does not make
  `verify` fail (`VerifyIgnoresPayloadEdits`).
- `sign` with a too-long token throws after the header and token are
  attached. The hash is left unchanged.

## Model

| member | source | states |
|---|---|---|
| `Claims.Join` | src/message.js:36 | an entry's `toString`: no parts give the empty text, one part is that part |
| `Claims.JoinAppend` | src/message.js:36 | the text of two non-empty runs of parts is their texts joined by a comma, as `Array.prototype.toString` writes entries of any length |
| `Claims.Utf16Length` | src/message.js:134 | JavaScript's `length`: at least the number of characters and at most twice it |
| `Claims.Utf16LengthOfBmp` | src/message.js:134 | on text inside the Basic Multilingual Plane, such as a compact JWS token, the length is the number of characters |
| `Claims.AstralTokenTooLong` | src/message.js:132-136 | 5001 characters outside the Basic Multilingual Plane are 10002 code units and are refused with JwsTooLong |
| `Claims.Text` | src/message.js:8-62 | every ValidationError text starts with "Invalid Identifi message: " and says more after it |
| `Claims.RecipientEmptySharesAuthorText` | src/message.js:44 | an empty recipient list is reported with the "Author empty" text, yet it is a reason of its own |
| `Claims.IsPositive` | src/message.js:68-70 | positive iff all three numbers are present and rating > (maxRating + minRating) / 2 over the reals, strictly |
| `Claims.MidpointIsNotPositive` | src/message.js:69 | a rating exactly at the midpoint is not positive |
| `Claims.ValidateJws` | src/message.js:132-136 | accepted iff the token is a string of at most 10000 UTF-16 code units; a non-string is JwsNotString, a longer string JwsTooLong; never returns false |
| `Claims.OrNumber` | src/message.js:90-91 | JavaScript's logical or with a fallback: a non-zero number is kept, a missing one or 0 becomes the fallback |
| `Claims.WithDefaults` | src/message.js:82-86 | the timestamp is kept if given, else the clock reading; the context is always a non-empty string, kept if one was given and "identifi" otherwise; nothing else changes |
| `Claims.WithRatingDefaults` | src/message.js:95-100 | the type becomes "rating"; each bound is kept when non-zero, a missing or 0 maxRating becomes 10 and minRating -10; nothing else changes |
| `Claims.ZeroMinimumIsReplaced` | src/message.js:98 | a supplied minRating of 0 is replaced by -10 |
| `ClaimRules.ScanAuthors` | src/message.js:35-42 | the author loop throws only author reasons, and an InvalidAuthor names a malformed entry of the list |
| `ClaimRules.ScanMatchesRules` | src/message.js:35-42 | the author loop finishes iff every entry is a pair, no keyID author with a non-empty value is followed by another keyID author, and with a known signer every keyID author names it |
| `ClaimRules.ScanStopsAtFirstFault` | src/message.js:35-41 | the author loop throws at the first entry that breaks the author rules, with that entry's reason |
| `ClaimRules.NoMismatchWithoutSigner` | src/message.js:40 | without a signer key hash the author loop never reports a keyID mismatch |
| `ClaimRules.FirstNonPair` | src/message.js:45-47 | the index of the first recipient entry that is not a pair: all before it are pairs, and it is one past the end when all are |
| `ClaimRules.ValidationResult` | src/message.js:22-66 | the outcome of `validate()` is true or a thrown ValidationError, never false |
| `ClaimRules.ValidationReportsFirstBrokenRule` | src/message.js:22-65 | validation returns true iff all eighteen rules hold, and otherwise reports a reason of the first rule in source order that is broken |
| `ClaimRules.MalformedAuthorRejects` | src/message.js:35-36 | one author entry whose length is not 2 rejects the claim, at the author checks at the latest |
| `ClaimRules.MalformedRecipientRejects` | src/message.js:45-46 | one recipient entry whose length is not 2 rejects the claim, at the recipient checks at the latest |
| `ClaimRules.AuthorErrorIsFirstFaultyEntry` | src/message.js:35-41 | once the author list is reached, the error is the fault of its first entry breaking the author rules |
| `ClaimRules.RecipientErrorIsFirstMalformedEntry` | src/message.js:45-47 | once the recipient entries are checked, the error names the first entry that is not a pair |
| `ClaimRules.KeyIdUnconstrainedWithoutSigner` | src/message.js:32-40 | with no signer key hash, validation never reports a keyID mismatch |
| `ClaimRules.KeyIdMustMatchSigner` | src/message.js:37-40 | with a signer key hash, a keyID author naming another key rejects the claim |
| `ClaimRules.SignedClaimHasOneKeyId` | src/message.js:37-40 | with a signer key hash, an accepted claim has at most one keyID author, and it names the signer |
| `ClaimRules.EmptyKeyIdDoesNotBlockSecond` | src/message.js:38-39 | two keyID authors pass when the first has the empty value |
| `ClaimRules.RatingBoundsInclusive` | src/message.js:52-59 | with the earlier checks passed, a numeric rating claim with a context is accepted iff minRating <= rating <= maxRating; above the maximum it is RatingAboveMax, below the minimum RatingBelowMin |
| `ClaimRules.NonRatingSkipsRatingRules` | src/message.js:52 | a claim of another type never fails a rating rule |
| `ClaimRules.IdentityLinkNeedsTwoRecipients` | src/message.js:61-63 | with every other rule passed, a verify_identity or unverify_identity claim is accepted iff it has at least 2 recipients, and otherwise fails with TooFewRecipients |
| `ClaimRules.EpochTimestampRejected` | src/message.js:50 | a timestamp that parses to 0 is rejected as invalid |
| `ClaimRules.RatingDefaultsPassDefaultedRules` | src/message.js:82-100 | a payload filled in by createRating never fails for a missing bound or context, and never for a missing timestamp when the clock reading is non-empty |
| `Messages.Materialize` | src/message.js:104-105 | the parsed payload becomes a fresh object holding that payload |
| `Messages.FromJwsOutcome` | src/message.js:102-105 | a non-string is JwsNotString, a string over 10000 code units JwsTooLong, one the JWS library cannot parse MalformedJws; otherwise the parsed token is accepted iff its payload passes validation with no signer, and a rejection carries validation's reason |
| `Messages.Message.constructor` | src/message.js:13-14 | a new message holds the payload and no header, token, hash or signer key hash |
| `Messages.Message.New` | src/message.js:13-16 | construction succeeds iff the payload validates with no signer, and otherwise throws validation's reason |
| `Messages.Message.SignerKeyHash` | src/message.js:18-20 | `util.getHash` of the header's key; it needs a header, and its one caller at src/message.js:32-33 calls it only when one is attached |
| `Messages.Message.Validate` | src/message.js:22-66 | the method makes the checks of lines 23-31 itself and the rest through `CheckClaim`, and returns `ValidationResult` of the payload; it sets signerKeyHash to the header key's hash once the author list is found non-empty and a header is present, and otherwise leaves it |
| `Messages.CheckClaim` | src/message.js:35-65 | the checks after the signer step return exactly `ValidationResult` of the claim, for a claim with a type and a non-empty author list |
| `Messages.CheckAuthors` | src/message.js:35-41 | the author loop reports exactly what `ScanAuthors` reports: the first non-pair entry, a second recorded keyID, or a keyID that differs from the signer key hash |
| `Messages.FindNonPair` | src/message.js:45-47 | the recipient loop stops at the first entry that is not a pair, the position `FirstNonPair` gives, or at the end of the list |
| `Messages.Message.Create` | src/message.js:82-86 | the caller's object is filled in as `WithDefaults` says, then construction succeeds iff the filled payload validates; the new message has no header, token, hash or signer key hash |
| `Messages.Message.CreateRating` | src/message.js:95-100 | the caller's object gets the rating defaults and then create's defaults, then validates as in create, and the new message has no header, token, hash or signer key hash |
| `Messages.Message.CreateVerification` | src/message.js:88-93 | the same as createRating; the result is a rating claim with no header, token, hash or signer key hash |
| `Messages.Message.Sign` | src/message.js:72-80 | after sign the header is {alg: ES256, key: public key}, the token is the JWS of header and payload, and on success the hash is the token's hash; a too-long token fails with JwsTooLong and leaves the hash |
| `Messages.Message.FromJws` | src/message.js:102-109 | succeeds iff `FromJwsOutcome` does; the message holds the parsed payload, the parsed header and the token's hash, with no token and no signer key hash |
| `Messages.Message.FromJwsKeepingToken` | src/message.js:102-109 | as FromJws, and the message also holds the token |
| `Messages.Message.Verify` | src/message.js:116-130 | a missing header or token throws; a bad signature fails; given a good one, a recorded hash equal to the token's passes and stays, a different recorded hash fails with InvalidHash, and with no recorded hash the token's hash is stored |
| `Messages.SignThenVerify` | src/message.js:72-130 | when the signature check accepts the token, a successfully signed message verifies, and its hash is the token's |
| `Messages.CreateThenValidate` | src/message.js:13-16 | a message that create accepted, validated again, passes and keeps an unset signer key hash, because create attaches no header |
| `Messages.VerifyTwice` | src/message.js:116-130 | verifying a second time gives the same result and leaves the hash the first call left |
| `Messages.ValidateTwice` | src/message.js:22-66 | validating an unchanged message a second time gives the same result and leaves the signer key hash the first call left |
| `Messages.ParsedMessageCannotVerify` | src/message.js:102-130 | a message produced by fromJws never verifies, because it holds no token; the error is a TypeError when the library can read the header key |
| `Messages.SignedTokenRoundTrip` | src/message.js:72-130 | given that the payload validates with no signer, and that the JWS library parses its own token back to the header and payload it signed and accepts its signature, the corrected fromJws yields a message with the same payload and hash, and that message verifies |
| `Messages.VerifyIgnoresPayloadEdits` | src/message.js:116-130 | replacing the recipients after signing does not make verify fail |

## Left out

- Cryptography and encodings are not modelled: JWS signing, verifying and parsing (RFC 7515 compact serialization, ES256 of RFC 7518 section 3.4), `KEYUTIL`, the ASN.1 to PEM conversion, SHA-256 and base64. They are functions of `Platform`. Nothing is assumed about them unless a method's `requires` says so.
- `JSON.stringify` is not modelled. The token is an opaque function of the header value and the payload value.
- `Date.parse` and the wall clock are not modelled. They are the function `dateParse` and the parameter `now`.
- JavaScript's dynamic typing is narrowed. A non-array author or recipient value, an entry whose elements are not strings, and a truthy non-string context are not represented. So are fractional ratings and bounds: ratings are integers.
- Messages.Message.Verify: a key that `KEYUTIL.getKey` cannot read is reported as InvalidSignature instead of the library's own exception, when a token is present. With no token the model reports TokenMissing whatever the key, while the source converts the key first (src/message.js:117-118), so an unreadable key throws there before the token is used.
- Messages.Message.Sign: exceptions thrown by the JWS library while signing are not modelled.
- Messages.Message.Create: the payload must be an object. Passing a primitive or `undefined` to the constructors is not modelled.
- Claims.WithRatingDefaults: a truthy rating or bound that is not a number (the string "ten", an object) is not represented. The `||` defaults would keep it and validation would throw at src/message.js:53-55. The model has only `None` (undefined or NaN), which the defaults replace by 10 or -10, and integers. `Claims.OrNumber` and `ClaimRules.ValidationResult` share this narrowing.
- Claims.IsPositive: it is stated on the payload value rather than on a message instance.
- Payload fields that validation does not read are not modelled. They would be carried into the token.
- Aliasing of the payload object is modelled only through `ClaimData` references. Other references the caller holds into it are not modelled.
- The Attribute class and the chat Channel are not part of this model. They appear only in the test files.

## Findings

| source | as written | input that shows it | evidently intended | confidence | as-written member | corrected member |
|---|---|---|---|---|---|---|
| src/message.js:102-109 | `fromJws` stores the parsed header and the hash but never assigns `msg.jws` | any accepted token whose header key the library can read: `verify()` on the result passes an undefined token to the JWS library and throws a TypeError | the parsed message keeps the token, so `verify()` can check its signature and hash | medium; not executed | `Messages.ParsedMessageCannotVerify` | `Messages.SignedTokenRoundTrip` |

`Messages.ParsedMessageCannotVerify` runs `Messages.Message.FromJws` as the code is written and proves that verify then fails. `Messages.Message.FromJwsKeepingToken` also stores the token. `Messages.SignedTokenRoundTrip` proves the intended property for it: sign, parse back, verify succeeds.
