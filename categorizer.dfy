/**
 * `EmailFilter.categorize_email`: additive scores, one per category, counted
 * in tenths. Every pattern is searched for as a substring of the lower-cased
 * subject or of the lower-cased parsed sender address; the regular
 * expression `promotional?` finds exactly the occurrences of `promotiona`.
 */
module Categorizer {
  import opened Text
  import opened Config
  import opened Message

  const NewsletterPatterns: seq<string> :=
    ["unsubscribe", "newsletter", "marketing", "promotiona", "offer", "deal", "sale", "discount",
     "click here", "limited time"]
  const AutomatedPatterns: seq<string> :=
    ["noreply", "no-reply", "donotreply", "automated", "notification", "alert", "system"]
  const PromotionalKeywords: seq<string> := ["sale", "deal", "offer", "discount", "limited time", "%"]
  const ReceiptKeywords: seq<string> := ["receipt", "invoice", "payment", "order", "purchase", "transaction"]

  /** The number of patterns that occur in `text`. */
  function Hits(patterns: seq<string>, text: string): (n: nat)
    ensures n <= |patterns|
    ensures n == 0 <==> forall i :: 0 <= i < |patterns| ==> !IsSubstring(patterns[i], text)
  {
    if |patterns| == 0 then 0
    else
      var last := patterns[|patterns| - 1];
      assert patterns == patterns[..|patterns| - 1] + [last];
      Hits(patterns[..|patterns| - 1], text) + (if IsSubstring(last, text) then 1 else 0)
  }

  /** The lower-cased subject. */
  function Subject(m: EmailMetadata): string {
    Lower(m.subject)
  }

  /**
   * `parseaddr(sender)[1].lower()` of the lower-cased `from`; the address
   * parser is a parameter.
   */
  function SenderAddress(m: EmailMetadata, parseAddr: string -> string): string {
    Lower(parseAddr(Lower(m.from)))
  }

  /** Uncapped scores in tenths. */
  function NewsletterScore(cfg: FilterConfig, m: EmailMetadata, parseAddr: string -> string): nat {
    3 * Hits(NewsletterPatterns, Subject(m)) + 4 * Hits(cfg.newsletterDomains, SenderAddress(m, parseAddr))
  }

  function AutomatedScore(m: EmailMetadata, parseAddr: string -> string): nat {
    5 * Hits(AutomatedPatterns, SenderAddress(m, parseAddr)) + 3 * Hits(AutomatedPatterns, Subject(m))
  }

  function PromotionalScore(m: EmailMetadata): nat {
    2 * Hits(PromotionalKeywords, Subject(m))
  }

  function ReceiptScore(m: EmailMetadata): nat {
    3 * Hits(ReceiptKeywords, Subject(m))
  }

  /** `min(score, 1.0)` in tenths. */
  function Capped(score: nat): (c: nat)
    ensures c <= 10 && c <= score
    ensures c == 10 || c == score
  {
    if score < 10 then score else 10
  }

  /** The reported scores, each capped at 1.0. */
  datatype ConfidenceScores = ConfidenceScores(newsletter: nat, automated: nat, promotional: nat, receipt: nat)

  datatype Categories = Categories(
    isNewsletter: bool,
    isPromotional: bool,
    isAutomated: bool,
    isSocial: bool,
    isReceipt: bool,
    scores: ConfidenceScores)

  /** The categories of one message: each flag is its score strictly above its threshold. */
  function Categorize(cfg: FilterConfig, m: EmailMetadata, parseAddr: string -> string): Categories {
    Categories(
      NewsletterScore(cfg, m, parseAddr) > 5,
      PromotionalScore(m) > 4,
      AutomatedScore(m, parseAddr) > 5,
      false,
      ReceiptScore(m) > 6,
      ConfidenceScores(
        Capped(NewsletterScore(cfg, m, parseAddr)), Capped(AutomatedScore(m, parseAddr)),
        Capped(PromotionalScore(m)), Capped(ReceiptScore(m))))
  }

  /** The number of patterns occurring in `text`, counted by a loop. */
  method CountHits(patterns: seq<string>, text: string) returns (n: nat)
    ensures n == Hits(patterns, text)
  {
    n := 0;
    for i := 0 to |patterns|
      invariant n == Hits(patterns[..i], text)
    {
      assert patterns[..i + 1][..i] == patterns[..i];
      if IsSubstring(patterns[i], text) {
        n := n + 1;
      }
    }
    assert patterns[..|patterns|] == patterns;
  }

  /** The newsletter score loop: 0.3 per subject pattern, then 0.4 per newsletter fragment in the sender. */
  method NewsletterScoreLoop(subject: string, senderEmail: string, domains: seq<string>) returns (score: nat)
    ensures score == 3 * Hits(NewsletterPatterns, subject) + 4 * Hits(domains, senderEmail)
  {
    score := 0;
    for i := 0 to |NewsletterPatterns|
      invariant score == 3 * Hits(NewsletterPatterns[..i], subject)
    {
      assert NewsletterPatterns[..i + 1][..i] == NewsletterPatterns[..i];
      if IsSubstring(NewsletterPatterns[i], subject) {
        score := score + 3;
      }
    }
    assert NewsletterPatterns[..|NewsletterPatterns|] == NewsletterPatterns;
    for i := 0 to |domains|
      invariant score == 3 * Hits(NewsletterPatterns, subject) + 4 * Hits(domains[..i], senderEmail)
    {
      assert domains[..i + 1][..i] == domains[..i];
      if IsSubstring(domains[i], senderEmail) {
        score := score + 4;
      }
    }
    assert domains[..|domains|] == domains;
  }

  /** The automated score loop: per pattern, 0.5 if it occurs in the sender and 0.3 if in the subject. */
  method AutomatedScoreLoop(subject: string, senderEmail: string) returns (score: nat)
    ensures score == 5 * Hits(AutomatedPatterns, senderEmail) + 3 * Hits(AutomatedPatterns, subject)
  {
    score := 0;
    for i := 0 to |AutomatedPatterns|
      invariant score == 5 * Hits(AutomatedPatterns[..i], senderEmail) + 3 * Hits(AutomatedPatterns[..i], subject)
    {
      assert AutomatedPatterns[..i + 1][..i] == AutomatedPatterns[..i];
      if IsSubstring(AutomatedPatterns[i], senderEmail) {
        score := score + 5;
      }
      if IsSubstring(AutomatedPatterns[i], subject) {
        score := score + 3;
      }
    }
    assert AutomatedPatterns[..|AutomatedPatterns|] == AutomatedPatterns;
  }

  /**
   * `categorize_email`: the newsletter and automated scores are accumulated
   * pattern by pattern, the promotional and receipt scores summed over
   * their keywords, and each flag set from its score.
   */
  method CategorizeEmail(cfg: FilterConfig, m: EmailMetadata, parseAddr: string -> string) returns (c: Categories)
    ensures c == Categorize(cfg, m, parseAddr)
    ensures c.isPromotional <==> Hits(PromotionalKeywords, Subject(m)) >= 3
    ensures c.isReceipt <==> Hits(ReceiptKeywords, Subject(m)) >= 3
    ensures !c.isSocial
  {
    var subject := Lower(m.subject);
    var senderEmail := Lower(parseAddr(Lower(m.from)));
    var newsletterScore := NewsletterScoreLoop(subject, senderEmail, cfg.newsletterDomains);
    var automatedScore := AutomatedScoreLoop(subject, senderEmail);
    var promotionalHits := CountHits(PromotionalKeywords, subject);
    var receiptHits := CountHits(ReceiptKeywords, subject);
    var promotionalScore := 2 * promotionalHits;
    var receiptScore := 3 * receiptHits;

    c := Categories(
      newsletterScore > 5,
      promotionalScore > 4,
      automatedScore > 5,
      false,
      receiptScore > 6,
      ConfidenceScores(Capped(newsletterScore), Capped(automatedScore), Capped(promotionalScore), Capped(receiptScore)));
  }

  /**
   * Both the newsletter and the automated flag need at least two matches in
   * all: one subject pattern (0.3) or one sender match (0.4 or 0.5) alone
   * never exceeds 0.5.
   */
  lemma NewsletterAndAutomatedNeedTwoMatches(cfg: FilterConfig, m: EmailMetadata, parseAddr: string -> string)
    ensures Categorize(cfg, m, parseAddr).isNewsletter <==>
      Hits(NewsletterPatterns, Subject(m)) + Hits(cfg.newsletterDomains, SenderAddress(m, parseAddr)) >= 2
    ensures Categorize(cfg, m, parseAddr).isAutomated <==>
      Hits(AutomatedPatterns, Subject(m)) + Hits(AutomatedPatterns, SenderAddress(m, parseAddr)) >= 2
  {
  }

  const SpecialOffer: string := "special offer - 50% off!"

  /** The lower-cased demonstration subject contains `offer` and `%` ... */
  lemma SpecialOfferHits()
    ensures IsSubstring("offer", SpecialOffer) && IsSubstring("%", SpecialOffer)
  {
    assert OccursAt("offer", SpecialOffer, 8);
    assert OccursAt("%", SpecialOffer, 18);
  }

  /** ... and none of `sale`, `deal`, `discount`, `limited time`. */
  lemma SpecialOfferMissesSale()
    ensures !IsSubstring("sale", SpecialOffer)
  {
    CharAbsent("sale", SpecialOffer[1..], 0);
  }

  lemma SpecialOfferMissesDeal()
    ensures !IsSubstring("deal", SpecialOffer) && !IsSubstring("discount", SpecialOffer)
  {
    CharAbsent("deal", SpecialOffer, 0);
    CharAbsent("discount", SpecialOffer, 0);
  }

  lemma SpecialOfferMissesLimitedTime()
    ensures !IsSubstring("limited time", SpecialOffer)
  {
    CharAbsent("limited time", SpecialOffer, 2);
  }

  lemma LowerSpecialOffer()
    ensures Lower("Special Offer - 50% Off!") == SpecialOffer
  {
    var t := "Special Offer - 50% Off!";
    assert forall i :: 0 <= i < |t| ==> Lower(t)[i] == SpecialOffer[i];
  }

  /** Adding one pattern adds one to the count exactly when that pattern occurs. */
  lemma HitsSnoc(patterns: seq<string>, p: string, text: string)
    ensures Hits(patterns + [p], text) == Hits(patterns, text) + (if IsSubstring(p, text) then 1 else 0)
  {
    assert (patterns + [p])[..|patterns|] == patterns;
  }

  /** A subject that contains `offer` and `%` and no other promotional keyword scores two hits. */
  lemma OfferAndPercentHits(t: string)
    requires IsSubstring("offer", t) && IsSubstring("%", t)
    requires !IsSubstring("sale", t) && !IsSubstring("deal", t)
    requires !IsSubstring("discount", t) && !IsSubstring("limited time", t)
    ensures Hits(PromotionalKeywords, t) == 2
  {
    HitsSnoc([], "sale", t);
    HitsSnoc(["sale"], "deal", t);
    HitsSnoc(["sale", "deal"], "offer", t);
    HitsSnoc(["sale", "deal", "offer"], "discount", t);
    HitsSnoc(["sale", "deal", "offer", "discount"], "limited time", t);
    HitsSnoc(["sale", "deal", "offer", "discount", "limited time"], "%", t);
    assert [] + ["sale"] == ["sale"];
    assert ["sale"] + ["deal"] == ["sale", "deal"];
    assert ["sale", "deal"] + ["offer"] == ["sale", "deal", "offer"];
    assert ["sale", "deal", "offer"] + ["discount"] == ["sale", "deal", "offer", "discount"];
    assert ["sale", "deal", "offer", "discount"] + ["limited time"] == ["sale", "deal", "offer", "discount", "limited time"];
    assert ["sale", "deal", "offer", "discount", "limited time"] + ["%"] == PromotionalKeywords;
  }

  /**
   * The demonstration subject "Special Offer - 50% Off!" contains only the
   * promotional keywords `offer` and `%`: a score of 0.4, which is not above
   * the 0.4 threshold, so the message is not flagged promotional.
   */
  lemma SpecialOfferIsNotPromotional(cfg: FilterConfig, m: EmailMetadata, parseAddr: string -> string)
    requires m.subject == "Special Offer - 50% Off!"
    ensures Hits(PromotionalKeywords, Subject(m)) == 2
    ensures !Categorize(cfg, m, parseAddr).isPromotional
  {
    LowerSpecialOffer();
    SpecialOfferHits();
    SpecialOfferMissesSale();
    SpecialOfferMissesDeal();
    SpecialOfferMissesLimitedTime();
    OfferAndPercentHits(SpecialOffer);
  }
}
