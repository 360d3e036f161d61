/**
 * What `validate()` (src/message.js:22-66) decides, as functions of the
 * payload and the signer key hash it compares keyID authors against, and
 * the properties of that decision: an ordered table of rules, the first
 * broken one of which is the error reported.
 */
module ClaimRules {
  import opened Results
  import opened Claims

  /** Date.parse: milliseconds since the epoch, or None for NaN. */
  type DateParser = string -> Option<int>

  // ---------------------------------------------------------------------
  // The author loop (src/message.js:35-42)
  // ---------------------------------------------------------------------

  /** The author loop from index `i` on, where `held` is the keyID it has
      recorded so far ("" while none) and `signer` the signer key hash ("" when
      unknown). None when the loop finishes without throwing. */
  function ScanAuthors(a: seq<Entry>, i: nat, held: string, signer: string): (r: Option<Reason>)
    requires i <= |a|
    ensures r.Some? ==> r.value.InvalidAuthor? || r.value.DuplicateKeyId? || r.value.KeyIdMismatch?
    ensures r.Some? && r.value.InvalidAuthor? ==> exists k | i <= k < |a| :: r.value.entry == a[k] && !IsPair(a[k])
    decreases |a| - i
  {
    if i == |a| then None
    else if !IsPair(a[i]) then Some(InvalidAuthor(a[i]))
    else if a[i][0] == "keyID" then
      if held != "" then Some(DuplicateKeyId)
      else if signer != "" && a[i][1] != signer then Some(KeyIdMismatch)
      else ScanAuthors(a, i + 1, a[i][1], signer)
    else ScanAuthors(a, i + 1, held, signer)
  }

  /** The author rules stated without the loop: every entry is a pair; a keyID
      entry followed by another keyID entry has the empty value (the source
      tests the recorded keyID for truthiness); and when the signer is known,
      every keyID entry names it. */
  ghost predicate AuthorsValid(a: seq<Entry>, signer: string) {
    && (forall i | 0 <= i < |a| :: IsPair(a[i]))
    && (forall i, j | 0 <= i < j < |a| && IsKeyIdEntry(a[i]) && IsKeyIdEntry(a[j]) :: a[i][1] == "")
    && (signer != "" ==> forall i | 0 <= i < |a| && IsKeyIdEntry(a[i]) :: a[i][1] == signer)
  }

  /** The value of the last keyID entry of `p`, "" when there is none. */
  function HeldKeyId(p: seq<Entry>): string {
    if |p| == 0 then ""
    else if IsKeyIdEntry(p[|p| - 1]) then p[|p| - 1][1]
    else HeldKeyId(p[..|p| - 1])
  }

  /** The reason the loop throws at entry `e` when the entries before it, `p`, passed. */
  ghost function EntryFault(p: seq<Entry>, e: Entry, signer: string): Reason {
    if !IsPair(e) then InvalidAuthor(e)
    else if IsKeyIdEntry(e) && exists j | 0 <= j < |p| :: IsKeyIdEntry(p[j]) && p[j][1] != "" then DuplicateKeyId
    else KeyIdMismatch
  }

  lemma {:induction false} HeldKeyIdEmpty(p: seq<Entry>, signer: string)
    requires AuthorsValid(p, signer)
    ensures HeldKeyId(p) == "" <==> forall j | 0 <= j < |p| && IsKeyIdEntry(p[j]) :: p[j][1] == ""
  {
    if |p| > 0 {
      var q := p[..|p| - 1];
      assert forall j | 0 <= j < |q| :: q[j] == p[j];
      if !IsKeyIdEntry(p[|p| - 1]) {
        HeldKeyIdEmpty(q, signer);
      }
    }
  }

  lemma HeldKeyIdSnoc(p: seq<Entry>, e: Entry)
    ensures HeldKeyId(p + [e]) == if IsKeyIdEntry(e) then e[1] else HeldKeyId(p)
  {
    assert (p + [e])[..|p|] == p;
  }

  lemma AuthorsValidSnoc(p: seq<Entry>, e: Entry, signer: string)
    ensures AuthorsValid(p + [e], signer) <==>
      && AuthorsValid(p, signer)
      && IsPair(e)
      && (IsKeyIdEntry(e) ==> forall j | 0 <= j < |p| && IsKeyIdEntry(p[j]) :: p[j][1] == "")
      && (signer != "" && IsKeyIdEntry(e) ==> e[1] == signer)
  {
    var a := p + [e];
    assert forall j | 0 <= j < |p| :: a[j] == p[j];
    assert a[|p|] == e;
  }

  /** The loop, continued from a prefix `a[..i]` that passed, finishes
      exactly when the whole list obeys the author rules. */
  lemma {:induction false} ScanFromValidPrefix(a: seq<Entry>, i: nat, signer: string)
    requires i <= |a| && AuthorsValid(a[..i], signer)
    ensures ScanAuthors(a, i, HeldKeyId(a[..i]), signer).None? <==> AuthorsValid(a, signer)
    decreases |a| - i
  {
    if i == |a| {
      assert a[..i] == a;
    } else {
      var p, e := a[..i], a[i];
      assert a[..i + 1] == p + [e];
      AuthorsValidSnoc(p, e, signer);
      HeldKeyIdSnoc(p, e);
      HeldKeyIdEmpty(p, signer);
      if AuthorsValid(a[..i + 1], signer) {
        ScanFromValidPrefix(a, i + 1, signer);
      } else {
        PrefixOfValid(a, i + 1, signer);
      }
    }
  }

  lemma PrefixOfValid(a: seq<Entry>, k: nat, signer: string)
    requires k <= |a|
    ensures AuthorsValid(a, signer) ==> AuthorsValid(a[..k], signer)
  {
    var p := a[..k];
    assert forall j | 0 <= j < k :: p[j] == a[j];
  }

  /** The author loop finishes exactly when the author rules hold. */
  lemma ScanMatchesRules(a: seq<Entry>, signer: string)
    ensures ScanAuthors(a, 0, "", signer).None? <==> AuthorsValid(a, signer)
  {
    assert a[..0] == [];
    ScanFromValidPrefix(a, 0, signer);
  }

  /** The loop throws at the first entry `a[k]` that breaks the author rules,
      with the reason that entry gives. */
  lemma {:induction false} ScanStopsAtFirstFault(a: seq<Entry>, i: nat, k: nat, signer: string)
    requires i <= k < |a|
    requires AuthorsValid(a[..k], signer) && !AuthorsValid(a[..k + 1], signer)
    ensures ScanAuthors(a, i, HeldKeyId(a[..i]), signer) == Some(EntryFault(a[..k], a[k], signer))
    decreases k - i
  {
    PrefixOfValid(a[..k], i, signer);
    assert a[..k][..i] == a[..i];
    var p, e := a[..i], a[i];
    assert a[..i + 1] == p + [e];
    AuthorsValidSnoc(p, e, signer);
    HeldKeyIdSnoc(p, e);
    HeldKeyIdEmpty(p, signer);
    if i == k {
      if IsPair(e) && IsKeyIdEntry(e) && HeldKeyId(p) != "" {
        var j :| 0 <= j < |p| && IsKeyIdEntry(p[j]) && p[j][1] != "";
      }
    } else {
      PrefixOfValid(a[..k], i + 1, signer);
      assert a[..k][..i + 1] == a[..i + 1];
      ScanStopsAtFirstFault(a, i + 1, k, signer);
    }
  }

  /** Without a signer key hash the loop never reports a keyID mismatch. */
  lemma {:induction false} NoMismatchWithoutSigner(a: seq<Entry>, i: nat, held: string)
    requires i <= |a|
    ensures ScanAuthors(a, i, held, "") != Some(KeyIdMismatch)
    decreases |a| - i
  {
    if i < |a| && IsPair(a[i]) {
      if a[i][0] == "keyID" {
        if held == "" { NoMismatchWithoutSigner(a, i + 1, a[i][1]); }
      } else {
        NoMismatchWithoutSigner(a, i + 1, held);
      }
    }
  }

  // ---------------------------------------------------------------------
  // The recipient loop (src/message.js:45-47)
  // ---------------------------------------------------------------------

  /** The index of the first entry that is not a pair, |s| when all are. */
  function FirstNonPair(s: seq<Entry>): (k: nat)
    ensures k <= |s|
    ensures forall j | 0 <= j < k :: IsPair(s[j])
    ensures k < |s| ==> !IsPair(s[k])
  {
    if |s| == 0 || !IsPair(s[0]) then 0 else 1 + FirstNonPair(s[1..])
  }

  // ---------------------------------------------------------------------
  // validate() as a whole
  // ---------------------------------------------------------------------

  /** The rating checks run for a claim of type "rating" (src/message.js:53-58). */
  function RatingFault(c: Claim): Option<Reason> {
    if c.rating.None? then Some(InvalidRating)
    else if c.maxRating.None? then Some(InvalidMaxRating)
    else if c.minRating.None? then Some(InvalidMinRating)
    else if c.rating.value > c.maxRating.value then Some(RatingAboveMax)
    else if c.rating.value < c.minRating.value then Some(RatingBelowMin)
    else if c.context.None? || c.context.value == "" then Some(MissingContext)
    else None
  }

  /** The outcome of `validate()` on payload `d` once the signer key hash is
      `signer` ("" when none): Ok(true), or the first check that throws. */
  function ValidationResult(d: SignedData, signer: string, parse: DateParser): (r: Result<bool, Reason>)
    ensures r != Ok(false)
    ensures r.Err? ==> IsValidationError(r.error)
  {
    match d
    case Missing => Err(MissingSignedData)
    case Scalar => Err(NotAnObject)
    case Record(c) =>
      if c.claimType == "" then Err(MissingType)
      else if c.author.None? then Err(MissingAuthor)
      else if |c.author.value| == 0 then Err(AuthorEmpty)
      else
        var authorFault := ScanAuthors(c.author.value, 0, "", signer);
        if authorFault.Some? then Err(authorFault.value)
        else if c.recipient.None? then Err(MissingRecipient)
        else if |c.recipient.value| == 0 then Err(RecipientEmpty)
        else
          var k := FirstNonPair(c.recipient.value);
          if k < |c.recipient.value| then Err(InvalidRecipient(c.recipient.value[k]))
          else if c.timestamp == "" then Err(MissingTimestamp)
          else if !ParsesToDate(parse(c.timestamp)) then Err(InvalidTimestamp)
          else if IsRating(c) && RatingFault(c).Some? then Err(RatingFault(c).value)
          else if IsIdentityLink(c) && |c.recipient.value| < 2 then Err(TooFewRecipients)
          else Ok(true)
  }

  /** Whether `validate()` gets as far as reading the signer key hash
      (src/message.js:32-34), which happens after the author list is found non-empty. */
  predicate ReachesSignerStep(d: SignedData) {
    d.Record? && d.claim.claimType != "" && d.claim.author.Some? && |d.claim.author.value| > 0
  }

  // ---------------------------------------------------------------------
  // The rule table
  // ---------------------------------------------------------------------

  const RuleCount := 18

  /** The position in source order of the rule whose violation `r` reports;
      RuleCount for failures that are not about the payload. */
  function RuleOf(r: Reason): nat {
    match r
    case MissingSignedData => 0
    case NotAnObject => 1
    case MissingType => 2
    case MissingAuthor => 3
    case AuthorEmpty => 4
    case InvalidAuthor(_) => 5
    case DuplicateKeyId => 5
    case KeyIdMismatch => 5
    case MissingRecipient => 6
    case RecipientEmpty => 7
    case InvalidRecipient(_) => 8
    case MissingTimestamp => 9
    case InvalidTimestamp => 10
    case InvalidRating => 11
    case InvalidMaxRating => 12
    case InvalidMinRating => 13
    case RatingAboveMax => 14
    case RatingBelowMin => 15
    case MissingContext => 16
    case TooFewRecipients => 17
    case _ => RuleCount
  }

  /** Rule `k` (2 <= k < RuleCount) of the table on an object payload. */
  ghost predicate ClaimRule(k: nat, c: Claim, signer: string, parse: DateParser) {
    var numeric := c.rating.Some? && c.maxRating.Some? && c.minRating.Some?;
    match k
    case 2 => c.claimType != ""
    case 3 => c.author.Some?
    case 4 => c.author.Some? ==> |c.author.value| > 0
    case 5 => c.author.Some? ==> AuthorsValid(c.author.value, signer)
    case 6 => c.recipient.Some?
    case 7 => c.recipient.Some? ==> |c.recipient.value| > 0
    case 8 => c.recipient.Some? ==> forall i | 0 <= i < |c.recipient.value| :: IsPair(c.recipient.value[i])
    case 9 => c.timestamp != ""
    case 10 => ParsesToDate(parse(c.timestamp))
    case 11 => IsRating(c) ==> c.rating.Some?
    case 12 => IsRating(c) ==> c.maxRating.Some?
    case 13 => IsRating(c) ==> c.minRating.Some?
    case 14 => IsRating(c) && numeric ==> c.rating.value <= c.maxRating.value
    case 15 => IsRating(c) && numeric ==> c.rating.value >= c.minRating.value
    case 16 => IsRating(c) ==> c.context.Some? && c.context.value != ""
    case 17 => IsIdentityLink(c) && c.recipient.Some? ==> |c.recipient.value| >= 2
    case _ => true
  }

  /** Rule `k` of the table: 0 and 1 are about the payload itself, the rest
      about the fields of an object payload. */
  ghost predicate Holds(k: nat, d: SignedData, signer: string, parse: DateParser) {
    match k
    case 0 => !d.Missing?
    case 1 => !d.Scalar?
    case _ => d.Record? ==> ClaimRule(k, d.claim, signer, parse)
  }

  /** Every rule before `k` holds. */
  ghost predicate RulesBefore(k: nat, d: SignedData, signer: string, parse: DateParser) {
    forall j: nat | j < k :: Holds(j, d, signer, parse)
  }

  /** Every rule of the table holds. */
  ghost predicate Accepted(d: SignedData, signer: string, parse: DateParser) {
    RulesBefore(RuleCount, d, signer, parse)
  }

  /** `validate()` returns true exactly when every rule holds, and otherwise
      throws for the first rule, in source order, that is broken. */
  lemma ValidationReportsFirstBrokenRule(d: SignedData, signer: string, parse: DateParser)
    ensures ValidationResult(d, signer, parse) == Ok(true) <==> Accepted(d, signer, parse)
    ensures ValidationResult(d, signer, parse).Err? ==>
      var k := RuleOf(ValidationResult(d, signer, parse).error);
      k < RuleCount && !Holds(k, d, signer, parse) && RulesBefore(k, d, signer, parse)
  {
    if d.Record? && d.claim.author.Some? {
      ScanMatchesRules(d.claim.author.value, signer);
    }
    var r := ValidationResult(d, signer, parse);
    if r.Err? {
      assert !Holds(RuleOf(r.error), d, signer, parse);
    }
  }

  // ---------------------------------------------------------------------
  // Consequences of the rule table
  // ---------------------------------------------------------------------

  /** One author entry that is not a `[type, value]` pair rejects the claim. */
  lemma MalformedAuthorRejects(d: SignedData, signer: string, parse: DateParser, i: nat)
    requires d.Record? && d.claim.author.Some? && i < |d.claim.author.value|
    requires !IsPair(d.claim.author.value[i])
    ensures ValidationResult(d, signer, parse).Err?
    ensures RuleOf(ValidationResult(d, signer, parse).error) <= 5
  {
    ValidationReportsFirstBrokenRule(d, signer, parse);
    assert !Holds(5, d, signer, parse);
  }

  /** One recipient entry that is not a `[type, value]` pair rejects the claim. */
  lemma MalformedRecipientRejects(d: SignedData, signer: string, parse: DateParser, i: nat)
    requires d.Record? && d.claim.recipient.Some? && i < |d.claim.recipient.value|
    requires !IsPair(d.claim.recipient.value[i])
    ensures ValidationResult(d, signer, parse).Err?
    ensures RuleOf(ValidationResult(d, signer, parse).error) <= 8
  {
    ValidationReportsFirstBrokenRule(d, signer, parse);
    assert !Holds(8, d, signer, parse);
  }

  /** When the author checks are reached, the error names the first author
      entry that breaks the author rules, with that entry's reason. */
  lemma AuthorErrorIsFirstFaultyEntry(d: SignedData, signer: string, parse: DateParser, k: nat)
    requires ReachesSignerStep(d)
    requires var a := d.claim.author.value;
      k < |a| && AuthorsValid(a[..k], signer) && !AuthorsValid(a[..k + 1], signer)
    ensures var a := d.claim.author.value;
      ValidationResult(d, signer, parse) == Err(EntryFault(a[..k], a[k], signer))
  {
    var a := d.claim.author.value;
    assert a[..0] == [];
    ScanStopsAtFirstFault(a, 0, k, signer);
  }

  /** When the recipient checks are reached, the error names the first
      recipient entry that is not a pair. */
  lemma RecipientErrorIsFirstMalformedEntry(d: SignedData, signer: string, parse: DateParser, k: nat)
    requires RulesBefore(8, d, signer, parse) && d.Record? && d.claim.recipient.Some?
    requires var s := d.claim.recipient.value;
      k < |s| && !IsPair(s[k]) && forall j | 0 <= j < k :: IsPair(s[j])
    ensures ValidationResult(d, signer, parse) == Err(InvalidRecipient(d.claim.recipient.value[k]))
  {
    ValidationReportsFirstBrokenRule(d, signer, parse);
    assert Holds(2, d, signer, parse) && Holds(3, d, signer, parse) && Holds(4, d, signer, parse);
    assert Holds(5, d, signer, parse) && Holds(6, d, signer, parse) && Holds(7, d, signer, parse);
    ScanMatchesRules(d.claim.author.value, signer);
  }

  /** With no signer key hash the keyID author is unconstrained: validation
      never reports a mismatch. */
  lemma KeyIdUnconstrainedWithoutSigner(d: SignedData, parse: DateParser)
    ensures ValidationResult(d, "", parse) != Err(KeyIdMismatch)
  {
    if ReachesSignerStep(d) {
      NoMismatchWithoutSigner(d.claim.author.value, 0, "");
    }
  }

  /** With a signer key hash, a keyID author naming another key rejects the
      claim at the author checks at the latest. */
  lemma KeyIdMustMatchSigner(d: SignedData, signer: string, parse: DateParser, i: nat)
    requires signer != "" && d.Record? && d.claim.author.Some? && i < |d.claim.author.value|
    requires IsKeyIdEntry(d.claim.author.value[i]) && d.claim.author.value[i][1] != signer
    ensures ValidationResult(d, signer, parse).Err?
    ensures RuleOf(ValidationResult(d, signer, parse).error) <= 5
  {
    ValidationReportsFirstBrokenRule(d, signer, parse);
    assert !Holds(5, d, signer, parse);
  }

  /** With a signer key hash, an accepted claim has at most one keyID author,
      and it names the signer. */
  lemma SignedClaimHasOneKeyId(d: SignedData, signer: string, parse: DateParser, i: nat, j: nat)
    requires signer != "" && ValidationResult(d, signer, parse) == Ok(true)
    requires d.Record? && d.claim.author.Some? && i < |d.claim.author.value|
    requires IsKeyIdEntry(d.claim.author.value[i])
    ensures d.claim.author.value[i][1] == signer
    ensures j < |d.claim.author.value| && IsKeyIdEntry(d.claim.author.value[j]) ==> i == j
  {
    ValidationReportsFirstBrokenRule(d, signer, parse);
    assert Holds(5, d, signer, parse);
  }

  /** The duplicate-keyID test looks at the truthiness of the recorded keyID:
      a first keyID author with the empty value does not block a second one. */
  lemma EmptyKeyIdDoesNotBlockSecond()
    ensures ScanAuthors([["keyID", ""], ["keyID", "H1"]], 0, "", "") == None
    ensures AuthorsValid([["keyID", ""], ["keyID", "H1"]], "")
  {
    ScanMatchesRules([["keyID", ""], ["keyID", "H1"]], "");
  }

  /** Once the payload checks before the rating bounds pass, a numeric rating
      claim is accepted exactly when minRating <= rating <= maxRating, both
      bounds included. */
  lemma RatingBoundsInclusive(d: SignedData, signer: string, parse: DateParser)
    requires RulesBefore(11, d, signer, parse) && d.Record? && IsRating(d.claim)
    requires d.claim.rating.Some? && d.claim.maxRating.Some? && d.claim.minRating.Some?
    requires d.claim.context.Some? && d.claim.context.value != ""
    ensures var c := d.claim;
      ValidationResult(d, signer, parse) == Ok(true) <==>
        c.minRating.value <= c.rating.value <= c.maxRating.value
    ensures d.claim.rating.value > d.claim.maxRating.value ==>
      ValidationResult(d, signer, parse) == Err(RatingAboveMax)
    ensures d.claim.minRating.value > d.claim.rating.value && d.claim.rating.value <= d.claim.maxRating.value ==>
      ValidationResult(d, signer, parse) == Err(RatingBelowMin)
  {
    ValidationReportsFirstBrokenRule(d, signer, parse);
    assert !IsIdentityLink(d.claim);
    var r := ValidationResult(d, signer, parse);
    if r.Err? {
      assert RuleOf(r.error) >= 11;
    }
  }

  /** A claim of any other type never fails on the rating rules. */
  lemma NonRatingSkipsRatingRules(d: SignedData, signer: string, parse: DateParser)
    requires d.Record? && !IsRating(d.claim)
    ensures ValidationResult(d, signer, parse).Err? ==>
      !(11 <= RuleOf(ValidationResult(d, signer, parse).error) <= 16)
  {
    ValidationReportsFirstBrokenRule(d, signer, parse);
  }

  /** Once every other rule passes, a connection or disconnection claim is
      accepted exactly when it has at least two recipient entries. */
  lemma IdentityLinkNeedsTwoRecipients(d: SignedData, signer: string, parse: DateParser)
    requires RulesBefore(17, d, signer, parse) && d.Record? && IsIdentityLink(d.claim)
    ensures d.claim.recipient.Some?
    ensures ValidationResult(d, signer, parse) == Ok(true) <==> |d.claim.recipient.value| >= 2
    ensures |d.claim.recipient.value| < 2 ==> ValidationResult(d, signer, parse) == Err(TooFewRecipients)
  {
    assert Holds(6, d, signer, parse);
    ValidationReportsFirstBrokenRule(d, signer, parse);
    var r := ValidationResult(d, signer, parse);
    if r.Err? {
      assert RuleOf(r.error) == 17;
    }
  }

  /** `!Date.parse(ts)` is also true for the epoch, which parses to 0: a
      timestamp denoting 1970-01-01T00:00:00Z is refused as invalid. */
  lemma EpochTimestampRejected(d: SignedData, signer: string, parse: DateParser)
    requires RulesBefore(10, d, signer, parse) && d.Record? && parse(d.claim.timestamp) == Some(0)
    ensures ValidationResult(d, signer, parse) == Err(InvalidTimestamp)
  {
    ValidationReportsFirstBrokenRule(d, signer, parse);
    assert !Holds(10, d, signer, parse);
  }

  /** A payload filled in by createRating never fails on the bound or context
      checks, and, with a clock reading, never for a missing timestamp. */
  lemma RatingDefaultsPassDefaultedRules(c: Claim, now: string, signer: string, parse: DateParser)
    ensures var r := ValidationResult(Record(WithDefaults(WithRatingDefaults(c), now)), signer, parse);
      r.Err? ==> r.error !in {InvalidMaxRating, InvalidMinRating, MissingContext}
    ensures var r := ValidationResult(Record(WithDefaults(WithRatingDefaults(c), now)), signer, parse);
      now != "" ==> r != Err(MissingTimestamp)
  {
    var d := Record(WithDefaults(WithRatingDefaults(c), now));
    ValidationReportsFirstBrokenRule(d, signer, parse);
    assert Holds(9, d, signer, parse) <== now != "";
    assert Holds(12, d, signer, parse) && Holds(13, d, signer, parse) && Holds(16, d, signer, parse);
  }
}
