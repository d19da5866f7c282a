/**
 * The four fraud rules. Each has a name, a constant weight and an evaluation that scores a
 * transaction with its behavioural features. The `Rule` interface becomes the `RuleKind`
 * datatype, one constructor per implementation.
 */
module Rules {
  import opened Wrappers
  import opened Numeric
  import opened Strings
  import opened FraudTypes

  datatype RuleKind = HighAmount | ForeignLocation | SuspiciousMerchant | RapidTransactions

  function Name(rule: RuleKind): string
  {
    match rule
    case HighAmount => "high_amount"
    case ForeignLocation => "foreign_location"
    case SuspiciousMerchant => "suspicious_merchant"
    case RapidTransactions => "rapid_transactions"
  }

  function Weight(rule: RuleKind): real
  {
    match rule
    case HighAmount => 0.40
    case ForeignLocation => 0.20
    case SuspiciousMerchant => 0.20
    case RapidTransactions => 0.20
  }

  function Evaluate(rule: RuleKind, transaction: TransactionCreatedEvent, features: FeatureContext): real
  {
    match rule
    case HighAmount => HighAmountScore(transaction.amount)
    case ForeignLocation => ForeignLocationScore(transaction.location)
    case SuspiciousMerchant => SuspiciousMerchantScore(transaction.merchantId)
    case RapidTransactions => RapidTransactionScore(features)
  }

  /** Amounts at or below this are not scored. */
  const HIGH_AMOUNT_THRESHOLD: real := 5000.0

  /**
   * The excess over the threshold as a fraction of the threshold, divided at scale 4 half-up,
   * capped at 1.0. A missing amount scores 0.
   */
  function HighAmountScore(amount: Option<real>): real
  {
    if amount.None? || amount.value <= HIGH_AMOUNT_THRESHOLD then 0.0
    else MinReal(1.0, Units4(Scale4((amount.value - HIGH_AMOUNT_THRESHOLD) / HIGH_AMOUNT_THRESHOLD)))
  }

  /** The score lies in [0, 1], is 0 up to the threshold and 1.0 from twice the threshold on. */
  lemma HighAmountScoreRange(amount: Option<real>)
    ensures 0.0 <= HighAmountScore(amount) <= 1.0
    ensures amount.None? || amount.value <= HIGH_AMOUNT_THRESHOLD ==> HighAmountScore(amount) == 0.0
    ensures amount.Some? && amount.value >= 2.0 * HIGH_AMOUNT_THRESHOLD ==> HighAmountScore(amount) == 1.0
  {
    if amount.Some? && amount.value > HIGH_AMOUNT_THRESHOLD {
      var q := (amount.value - HIGH_AMOUNT_THRESHOLD) / HIGH_AMOUNT_THRESHOLD;
      Scale4Monotone(0.0, q);
      Scale4OfUnits(0);
      if amount.value >= 2.0 * HIGH_AMOUNT_THRESHOLD {
        Scale4Monotone(1.0, q);
        Scale4OfUnits(SCALE4);
      }
    }
  }

  /** A larger amount never scores lower. */
  lemma HighAmountScoreMonotone(a: real, b: real)
    requires a <= b
    ensures HighAmountScore(Some(a)) <= HighAmountScore(Some(b))
  {
    HighAmountScoreRange(Some(a));
    HighAmountScoreRange(Some(b));
    if a > HIGH_AMOUNT_THRESHOLD {
      Scale4Monotone((a - HIGH_AMOUNT_THRESHOLD) / HIGH_AMOUNT_THRESHOLD, (b - HIGH_AMOUNT_THRESHOLD) / HIGH_AMOUNT_THRESHOLD);
    }
  }

  /** 7500 scores 0.5, 20000 is capped at 1.0 and 5000 scores 0. */
  lemma HighAmountExamples()
    ensures HighAmountScore(Some(7500.0)) == 0.5
    ensures HighAmountScore(Some(20000.0)) == 1.0
    ensures HighAmountScore(Some(5000.0)) == 0.0
  {
    assert (7500.0 - 5000.0) / 5000.0 == Units4(5000);
    Scale4OfUnits(5000);
    HighAmountScoreRange(Some(20000.0));
  }

  const HIGH_RISK_LOCATIONS: seq<string> := ["lagos", "moscow", "bucharest", "phnom penh", "jakarta"]

  /** Some string of `needles` occurs in `haystack`. */
  predicate ContainsAny(haystack: string, needles: seq<string>)
  {
    exists k :: 0 <= k < |needles| && Contains(haystack, needles[k])
  }

  /** A normalized location in the foreign format: a comma and no United States suffix. */
  predicate InForeignFormat(normalized: string)
  {
    Contains(normalized, ",") && !EndsWith(normalized, "us") && !EndsWith(normalized, "usa")
    && !EndsWith(normalized, "united states")
  }

  /**
   * A trimmed, lower-cased location naming a high-risk city scores 1.0; one with a comma
   * that does not end in "us", "usa" or "united states" scores 0.65; anything else, a missing
   * or blank location included, scores 0.
   */
  function ForeignLocationScore(location: Option<string>): real
  {
    if location.None? || IsBlank(location.value) then 0.0
    else
      var normalized := Lower(Trim(location.value));
      if ContainsAny(normalized, HIGH_RISK_LOCATIONS) then 1.0
      else if InForeignFormat(normalized) then 0.65
      else 0.0
  }

  /** The three outcomes of the location rule and when each occurs. */
  lemma ForeignLocationScoreCases(location: Option<string>)
    ensures ForeignLocationScore(location) == 1.0 <==>
      location.Some? && !IsBlank(location.value) && ContainsAny(Lower(Trim(location.value)), HIGH_RISK_LOCATIONS)
    ensures ForeignLocationScore(location) == 0.65 <==>
      location.Some? && !IsBlank(location.value) && !ContainsAny(Lower(Trim(location.value)), HIGH_RISK_LOCATIONS)
      && InForeignFormat(Lower(Trim(location.value)))
    ensures ForeignLocationScore(location) == 0.0 <==>
      location.None? || IsBlank(location.value)
      || (!ContainsAny(Lower(Trim(location.value)), HIGH_RISK_LOCATIONS) && !InForeignFormat(Lower(Trim(location.value))))
  {
  }

  /** A blank normalized location names no city and has no comma. */
  lemma BlankNormalizedLocation(normalized: string)
    requires IsBlank(normalized)
    ensures !ContainsAny(normalized, HIGH_RISK_LOCATIONS) && !InForeignFormat(normalized)
  {
    forall k | 0 <= k < |HIGH_RISK_LOCATIONS|
      ensures !Contains(normalized, HIGH_RISK_LOCATIONS[k])
    {
      BlankContainsNoText(normalized, HIGH_RISK_LOCATIONS[k]);
    }
    BlankContainsNoText(normalized, ",");
  }

  /**
   * Padding and letter case do not matter: two locations with the same trimmed, lower-cased
   * form score the same, even when one of them is blank and so skipped before normalizing.
   */
  lemma ForeignLocationScoreNormalizes(a: string, b: string)
    requires Lower(Trim(a)) == Lower(Trim(b))
    ensures ForeignLocationScore(Some(a)) == ForeignLocationScore(Some(b))
  {
    if IsBlank(a) || IsBlank(b) {
      var blank := if IsBlank(a) then a else b;
      BlankLowerTrim(blank);
      BlankNormalizedLocation(Lower(Trim(a)));
    }
  }

  /** "Moscow, RU" is high risk. */
  lemma ForeignLocationHighRiskExample(location: string)
    requires location == "Moscow, RU"
    ensures ForeignLocationScore(Some(location)) == 1.0
  {
    Normalizes(location, "moscow, ru");
    MoscowRisky("moscow, ru");
    ForeignLocationOfNormalized(location, "moscow, ru");
  }

  /** A location starting with "moscow" names a high-risk city. */
  lemma MoscowRisky(s: string)
    requires |s| >= 6 && s[..6] == "moscow"
    ensures ContainsAny(s, HIGH_RISK_LOCATIONS)
  {
    assert Contains(s, HIGH_RISK_LOCATIONS[1]) by { ContainsPrefix(s, "moscow"); }
  }

  /** "Toronto, CA" is foreign. */
  lemma ForeignLocationForeignExample(location: string)
    requires location == "Toronto, CA"
    ensures ForeignLocationScore(Some(location)) == 0.65
  {
    Normalizes(location, "toronto, ca");
    NoRiskyCity("toronto, ca");
    ForeignFormat("toronto, ca");
    ForeignLocationOfNormalized(location, "toronto, ca");
  }

  /** "toronto, ca" has a comma and no United States suffix. */
  lemma ForeignFormat(s: string)
    requires s == "toronto, ca"
    ensures InForeignFormat(s)
  {
    ContainsIff(s, ",");
    assert OccursAt(s, ",", 7);
  }

  /** "Austin, US" is domestic. */
  lemma ForeignLocationDomesticExample(location: string)
    requires location == "Austin, US"
    ensures ForeignLocationScore(Some(location)) == 0.0
  {
    Normalizes(location, "austin, us");
    NoRiskyCity("austin, us");
    ForeignLocationOfNormalized(location, "austin, us");
  }

  /** `s` is not blank and trims and lower-cases to `t`. */
  lemma Normalizes(s: string, t: string)
    requires |s| == |t| > 0 && ' ' < s[0] <= '~' && s[|s| - 1] > ' '
    requires forall i :: 0 <= i < |s| ==> LowerChar(s[i]) == t[i]
    ensures !IsBlank(s) && Lower(Trim(s)) == t
  {
    assert !IsJavaWhitespace(s[0]);
    TrimWithFixed(s, c => c <= ' ');
  }

  /** The location score depends on the location only through its trimmed, lower-cased form. */
  lemma ForeignLocationOfNormalized(location: string, normalized: string)
    requires !IsBlank(location) && Lower(Trim(location)) == normalized
    ensures ForeignLocationScore(Some(location)) ==
      if ContainsAny(normalized, HIGH_RISK_LOCATIONS) then 1.0
      else if InForeignFormat(normalized) then 0.65
      else 0.0
  {
  }

  /** The merchant score depends on the id only through its trimmed, lower-cased form. */
  lemma SuspiciousMerchantOfNormalized(merchantId: string, normalized: string)
    requires !IsBlank(merchantId) && Lower(Trim(merchantId)) == normalized
    ensures SuspiciousMerchantScore(Some(merchantId)) == if ContainsAny(normalized, SUSPICIOUS_KEYWORDS) then 1.0 else 0.0
  {
  }

  /** No high-risk city name occurs in the strings of the examples. */
  lemma NoRiskyCity(s: string)
    requires s == "toronto, ca" || s == "austin, us"
    ensures !ContainsAny(s, HIGH_RISK_LOCATIONS)
  {
    if s == "toronto, ca" {
      NoRiskyCityIn(s);
    } else {
      NoRiskyCityIn(s);
    }
  }

  /** No high-risk city name occurs in `s`, one name at a time. */
  lemma NoRiskyCityIn(s: string)
    requires forall k, i :: 0 <= k < |HIGH_RISK_LOCATIONS| && 0 <= i < |s| - 1 ==>
      s[i] != HIGH_RISK_LOCATIONS[k][0] || s[i + 1] != HIGH_RISK_LOCATIONS[k][1]
    ensures !ContainsAny(s, HIGH_RISK_LOCATIONS)
  {
    forall k | 0 <= k < |HIGH_RISK_LOCATIONS|
      ensures !Contains(s, HIGH_RISK_LOCATIONS[k])
    {
      NoPairNoContains(s, HIGH_RISK_LOCATIONS[k]);
    }
  }

  const SUSPICIOUS_KEYWORDS: seq<string> := ["casino", "gambling", "bet", "crypto", "giftcard", "money-transfer", "wire"]

  /** A trimmed, lower-cased merchant id containing a suspicious keyword scores 1.0; any other, a missing or blank one included, 0. */
  function SuspiciousMerchantScore(merchantId: Option<string>): real
  {
    if merchantId.None? || IsBlank(merchantId.value) then 0.0
    else if ContainsAny(Lower(Trim(merchantId.value)), SUSPICIOUS_KEYWORDS) then 1.0
    else 0.0
  }

  /** The merchant rule flags exactly the ids naming a keyword. */
  lemma SuspiciousMerchantScoreIff(merchantId: Option<string>)
    ensures SuspiciousMerchantScore(merchantId) == 1.0 <==>
      merchantId.Some? && !IsBlank(merchantId.value) && ContainsAny(Lower(Trim(merchantId.value)), SUSPICIOUS_KEYWORDS)
    ensures SuspiciousMerchantScore(merchantId) != 1.0 ==> SuspiciousMerchantScore(merchantId) == 0.0
  {
  }

  /** A blank normalized id names no keyword. */
  lemma BlankNormalizedMerchant(normalized: string)
    requires IsBlank(normalized)
    ensures !ContainsAny(normalized, SUSPICIOUS_KEYWORDS)
  {
    forall k | 0 <= k < |SUSPICIOUS_KEYWORDS|
      ensures !Contains(normalized, SUSPICIOUS_KEYWORDS[k])
    {
      BlankContainsNoText(normalized, SUSPICIOUS_KEYWORDS[k]);
    }
  }

  /**
   * Padding and letter case do not matter: two merchant ids with the same trimmed,
   * lower-cased form score the same, even when one of them is blank.
   */
  lemma SuspiciousMerchantScoreNormalizes(a: string, b: string)
    requires Lower(Trim(a)) == Lower(Trim(b))
    ensures SuspiciousMerchantScore(Some(a)) == SuspiciousMerchantScore(Some(b))
  {
    if IsBlank(a) || IsBlank(b) {
      var blank := if IsBlank(a) then a else b;
      BlankLowerTrim(blank);
      BlankNormalizedMerchant(Lower(Trim(a)));
    }
  }

  /** Crypto exchanges are suspicious. */
  lemma SuspiciousMerchantExample(merchantId: string)
    requires merchantId == "crypto-exchange-1" || merchantId == "crypto-exchange-2" || merchantId == "crypto-exchange-99"
    ensures SuspiciousMerchantScore(Some(merchantId)) == 1.0
  {
    CryptoMerchantSuspicious(merchantId);
  }

  /** An id in lower case that starts with "crypto" and does not end in white space is suspicious. */
  lemma CryptoMerchantSuspicious(merchantId: string)
    requires |merchantId| >= 6 && merchantId[..6] == "crypto" && merchantId[|merchantId| - 1] > ' '
    requires forall i :: 0 <= i < |merchantId| ==> !('A' <= merchantId[i] <= 'Z')
    ensures SuspiciousMerchantScore(Some(merchantId)) == 1.0
  {
    assert merchantId[0] == 'c';
    Normalizes(merchantId, merchantId);
    CryptoKeyword(merchantId);
    SuspiciousMerchantOfNormalized(merchantId, merchantId);
  }

  /** Ordinary merchants are not suspicious. */
  lemma OrdinaryMerchantExample(merchantId: string)
    requires merchantId == "merchant-1" || merchantId == "merchant-grocery-1"
    ensures SuspiciousMerchantScore(Some(merchantId)) == 0.0
  {
    Normalizes(merchantId, merchantId);
    NoSuspiciousKeyword(merchantId);
    SuspiciousMerchantOfNormalized(merchantId, merchantId);
  }

  /** No keyword occurs in the ordinary merchant ids of the examples. */
  lemma NoSuspiciousKeyword(s: string)
    requires s == "merchant-1" || s == "merchant-grocery-1"
    ensures !ContainsAny(s, SUSPICIOUS_KEYWORDS)
  {
    if s == "merchant-1" {
      NoSuspiciousKeywordIn(s);
    } else {
      NoSuspiciousKeywordIn(s);
    }
  }

  /** No keyword occurs in `s`, one keyword at a time. */
  lemma NoSuspiciousKeywordIn(s: string)
    requires forall k, i :: 0 <= k < |SUSPICIOUS_KEYWORDS| && 0 <= i < |s| - 1 ==>
      s[i] != SUSPICIOUS_KEYWORDS[k][0] || s[i + 1] != SUSPICIOUS_KEYWORDS[k][1]
    ensures !ContainsAny(s, SUSPICIOUS_KEYWORDS)
  {
    forall k | 0 <= k < |SUSPICIOUS_KEYWORDS|
      ensures !Contains(s, SUSPICIOUS_KEYWORDS[k])
    {
      NoPairNoContains(s, SUSPICIOUS_KEYWORDS[k]);
    }
  }

  /** An id starting with "crypto" names the keyword "crypto". */
  lemma CryptoKeyword(s: string)
    requires |s| >= 6 && s[..6] == "crypto"
    ensures ContainsAny(s, SUSPICIOUS_KEYWORDS)
  {
    assert Contains(s, SUSPICIOUS_KEYWORDS[3]) by { ContainsPrefix(s, "crypto"); }
  }

  /**
   * Velocity tiers: at least 6 in a minute or 12 in five minutes scores 1.0; 4 or 8 scores
   * 0.80; 3 or 6 scores 0.55; otherwise a gap of at most 5 seconds scores 0.45, else 0.
   */
  function RapidTransactionScore(features: FeatureContext): real
  {
    var perMinute := features.transactionsPerMinute;
    var perFive := features.transactionsPerFiveMinutes;
    if perMinute >= 6 || perFive >= 12 then 1.0
    else if perMinute >= 4 || perFive >= 8 then 0.80
    else if perMinute >= 3 || perFive >= 6 then 0.55
    else if features.secondsSinceLastTransaction <= 5 then 0.45
    else 0.0
  }

  /** More transactions in either window, or a shorter gap, never lower the velocity score. */
  lemma RapidTransactionScoreMonotone(a: FeatureContext, b: FeatureContext)
    requires a.transactionsPerMinute <= b.transactionsPerMinute
    requires a.transactionsPerFiveMinutes <= b.transactionsPerFiveMinutes
    requires b.secondsSinceLastTransaction <= a.secondsSinceLastTransaction
    ensures RapidTransactionScore(a) <= RapidTransactionScore(b)
  {
  }

  /** Examples: (7, 10, 2) scores 1.0, (4, 7, 30) scores 0.8, (1, 2, 4) scores 0.45. */
  lemma RapidTransactionExamples()
    ensures RapidTransactionScore(FeatureContext(7, 10, 2)) == 1.0
    ensures RapidTransactionScore(FeatureContext(4, 7, 30)) == 0.8
    ensures RapidTransactionScore(FeatureContext(1, 2, 4)) == 0.45
  {
  }

  /** Every rule scores within [0, 1] and weighs a positive constant. */
  lemma EvaluateRange(rule: RuleKind, transaction: TransactionCreatedEvent, features: FeatureContext)
    ensures 0.0 <= Evaluate(rule, transaction, features) <= 1.0
    ensures Weight(rule) > 0.0
  {
    if rule.HighAmount? {
      HighAmountScoreRange(transaction.amount);
    }
  }
}
