/**
 * `get_filter_stats`: one pass over a list of metadata records counting the
 * decision, the categories, the size bucket and the age bucket of each.
 */
module FilterStats {
  import opened Wrappers
  import opened Config
  import opened Message
  import opened EmailFilter
  import opened Categorizer

  /** How many messages carry each category flag; `social` is never set. */
  datatype CategoryCounts = CategoryCounts(newsletter: nat, promotional: nat, automated: nat, receipt: nat, social: nat)

  /** Sizes under 1 MB, under 10 MB, and the rest. */
  datatype SizeDistribution = SizeDistribution(small: nat, medium: nat, large: nat)

  /** Ages under 30 days, under 365 days, and the rest (the source's `old`). */
  datatype AgeDistribution = AgeDistribution(recent: nat, medium: nat, older: nat)

  /** The counters the loop keeps, before the percentage is worked out. */
  datatype Counters = Counters(
    wouldProcess: nat,
    excludedByFilter: map<FilterType, nat>,
    categories: CategoryCounts,
    sizeDistribution: SizeDistribution,
    ageDistribution: AgeDistribution)

  datatype Stats = Stats(totalEmails: nat, counters: Counters, processPercentage: real)

  const NoCounts := Counters(0, map[], CategoryCounts(0, 0, 0, 0, 0), SizeDistribution(0, 0, 0), AgeDistribution(0, 0, 0))

  /** `d.get(t, 0)`. */
  function CountOf(counts: map<FilterType, nat>, t: FilterType): nat {
    if t in counts then counts[t] else 0
  }

  /** The total over every filter type. */
  function Excluded(counts: map<FilterType, nat>): nat {
    CountOf(counts, Exclusion) + CountOf(counts, Time) + CountOf(counts, Size) + CountOf(counts, Sender) +
    CountOf(counts, Content) + CountOf(counts, Custom) + CountOf(counts, Inclusive)
  }

  /** One more exclusion of type `t`: that count goes up by one and no other moves. */
  function Bump(counts: map<FilterType, nat>, t: FilterType): (r: map<FilterType, nat>)
    ensures CountOf(r, t) == CountOf(counts, t) + 1
    ensures forall u :: u != t ==> CountOf(r, u) == CountOf(counts, u)
  {
    counts[t := CountOf(counts, t) + 1]
  }

  lemma ExcludedBump(counts: map<FilterType, nat>, t: FilterType)
    ensures Excluded(Bump(counts, t)) == Excluded(counts) + 1
  {
    var r := Bump(counts, t);
    match t
    case Exclusion =>
    case Time =>
    case Size =>
    case Sender =>
    case Content =>
    case Custom =>
    case Inclusive =>
  }

  function Flag(b: bool): nat {
    if b then 1 else 0
  }

  /** The size bucket: `size_estimate / 2**20` below 1, below 10, or not. */
  function CountSize(d: SizeDistribution, sizeEstimate: int): SizeDistribution {
    if sizeEstimate < BytesPerMb then d.(small := d.small + 1)
    else if sizeEstimate < 10 * BytesPerMb then d.(medium := d.medium + 1)
    else d.(large := d.large + 1)
  }

  /** The age in whole days, as `timedelta.days` floors it. */
  function AgeDays(now: int, date: int): int {
    (now - date) / SecondsPerDay
  }

  function CountAge(d: AgeDistribution, date: Option<int>, now: int): AgeDistribution {
    match date
    case None => d
    case Some(t) =>
      if AgeDays(now, t) < 30 then d.(recent := d.recent + 1)
      else if AgeDays(now, t) < 365 then d.(medium := d.medium + 1)
      else d.(older := d.older + 1)
  }

  /** The counters after one more message. */
  function Count(c: Counters, r: FilterResult, cat: Categories, m: EmailMetadata, now: int): Counters {
    Counters(
      if r.shouldProcess then c.wouldProcess + 1 else c.wouldProcess,
      if r.shouldProcess then c.excludedByFilter else Bump(c.excludedByFilter, r.filterType),
      CategoryCounts(
        c.categories.newsletter + Flag(cat.isNewsletter), c.categories.promotional + Flag(cat.isPromotional),
        c.categories.automated + Flag(cat.isAutomated), c.categories.receipt + Flag(cat.isReceipt),
        c.categories.social + Flag(cat.isSocial)),
      CountSize(c.sizeDistribution, m.sizeEstimate),
      CountAge(c.ageDistribution, m.date, now))
  }

  /** The counters over a list of messages, message by message. */
  function Tally(cfg: FilterConfig, ms: seq<EmailMetadata>, now: int, parseAddr: string -> string): Counters {
    if |ms| == 0 then NoCounts
    else
      var m := ms[|ms| - 1];
      Count(Tally(cfg, ms[..|ms| - 1], now, parseAddr), Decide(cfg, m, now), Categorize(cfg, m, parseAddr), m, now)
  }

  function Dated(ms: seq<EmailMetadata>): nat {
    if |ms| == 0 then 0 else Dated(ms[..|ms| - 1]) + Flag(ms[|ms| - 1].date.Some?)
  }

  function Accepted(cfg: FilterConfig, ms: seq<EmailMetadata>, now: int): nat {
    if |ms| == 0 then 0 else Accepted(cfg, ms[..|ms| - 1], now) + Flag(Decide(cfg, ms[|ms| - 1], now).shouldProcess)
  }

  function Percentage(part: nat, total: nat): (p: real)
    ensures total == 0 ==> p == 0.0
    ensures 0 < total && part <= total ==> 0.0 <= p <= 100.0
  {
    if total > 0 then (part as real / total as real) * 100.0 else 0.0
  }

  /**
   * The conservation laws: processed plus excluded is the total, the size
   * buckets cover every message, the age buckets every dated one, and no
   * message is counted as social.
   */
  lemma {:induction false} TallyConserves(cfg: FilterConfig, ms: seq<EmailMetadata>, now: int, parseAddr: string -> string)
    ensures var c := Tally(cfg, ms, now, parseAddr);
      c.wouldProcess + Excluded(c.excludedByFilter) == |ms| &&
      c.wouldProcess == Accepted(cfg, ms, now) &&
      c.sizeDistribution.small + c.sizeDistribution.medium + c.sizeDistribution.large == |ms| &&
      c.ageDistribution.recent + c.ageDistribution.medium + c.ageDistribution.older == Dated(ms) &&
      c.categories.social == 0
  {
    if |ms| > 0 {
      var m := ms[|ms| - 1];
      TallyConserves(cfg, ms[..|ms| - 1], now, parseAddr);
      CountConserves(Tally(cfg, ms[..|ms| - 1], now, parseAddr), Decide(cfg, m, now), Categorize(cfg, m, parseAddr), m, now);
    }
  }

  /** One message adds one to the decision counts, one size bucket, and one age bucket when dated. */
  lemma CountConserves(c: Counters, r: FilterResult, cat: Categories, m: EmailMetadata, now: int)
    ensures var c' := Count(c, r, cat, m, now);
      c'.wouldProcess + Excluded(c'.excludedByFilter) == c.wouldProcess + Excluded(c.excludedByFilter) + 1 &&
      c'.wouldProcess == c.wouldProcess + Flag(r.shouldProcess) &&
      c'.sizeDistribution.small + c'.sizeDistribution.medium + c'.sizeDistribution.large ==
        c.sizeDistribution.small + c.sizeDistribution.medium + c.sizeDistribution.large + 1 &&
      c'.ageDistribution.recent + c'.ageDistribution.medium + c'.ageDistribution.older ==
        c.ageDistribution.recent + c.ageDistribution.medium + c.ageDistribution.older + Flag(m.date.Some?) &&
      c'.categories.social == c.categories.social + Flag(cat.isSocial)
  {
    if !r.shouldProcess {
      ExcludedBump(c.excludedByFilter, r.filterType);
    }
  }

  /** Only rejecting filter types are ever counted as exclusions: never the inclusive type. */
  lemma {:induction false} TallyNeverExcludesInclusive(cfg: FilterConfig, ms: seq<EmailMetadata>, now: int, parseAddr: string -> string)
    ensures CountOf(Tally(cfg, ms, now, parseAddr).excludedByFilter, Inclusive) == 0
  {
    if |ms| > 0 {
      TallyNeverExcludesInclusive(cfg, ms[..|ms| - 1], now, parseAddr);
      var m := ms[|ms| - 1];
      DecisionConfidence(cfg, m, now);
    }
  }

  /** The counter updates for one message whose decision and categories are known. */
  method CountDecided(c: Counters, result: FilterResult, cat: Categories, m: EmailMetadata, now: int)
    returns (next: Counters)
    ensures next == Count(c, result, cat, m, now)
  {
    next := c;
    if result.shouldProcess {
      next := next.(wouldProcess := next.wouldProcess + 1);
    } else {
      next := next.(excludedByFilter := Bump(next.excludedByFilter, result.filterType));
    }
    next := next.(categories := CategoryCounts(
      next.categories.newsletter + Flag(cat.isNewsletter), next.categories.promotional + Flag(cat.isPromotional),
      next.categories.automated + Flag(cat.isAutomated), next.categories.receipt + Flag(cat.isReceipt),
      next.categories.social + Flag(cat.isSocial)));
    next := next.(sizeDistribution := CountSize(next.sizeDistribution, m.sizeEstimate));
    next := next.(ageDistribution := CountAge(next.ageDistribution, m.date, now));
  }

  /** The loop body of `get_filter_stats`: decide, categorize, and bucket one message. */
  method CountMessage(c: Counters, cfg: FilterConfig, m: EmailMetadata, now: int, parseAddr: string -> string)
    returns (next: Counters)
    ensures next == Count(c, Decide(cfg, m, now), Categorize(cfg, m, parseAddr), m, now)
  {
    var result := ShouldProcessEmail(cfg, m, now);
    var cat := CategorizeEmail(cfg, m, parseAddr);
    next := CountDecided(c, result, cat, m, now);
  }

  /** `get_filter_stats`. */
  method GetFilterStats(cfg: FilterConfig, ms: seq<EmailMetadata>, now: int, parseAddr: string -> string)
    returns (stats: Stats)
    ensures stats.totalEmails == |ms|
    ensures stats.counters == Tally(cfg, ms, now, parseAddr)
    ensures stats.processPercentage == Percentage(stats.counters.wouldProcess, |ms|)
    ensures stats.counters.wouldProcess + Excluded(stats.counters.excludedByFilter) == |ms|
    ensures |ms| == 0 ==> stats.processPercentage == 0.0
    ensures 0.0 <= stats.processPercentage <= 100.0
  {
    var c := NoCounts;
    for i := 0 to |ms|
      invariant c == Tally(cfg, ms[..i], now, parseAddr)
    {
      assert ms[..i + 1][..i] == ms[..i];
      c := CountMessage(c, cfg, ms[i], now, parseAddr);
    }
    assert ms[..|ms|] == ms;
    TallyConserves(cfg, ms, now, parseAddr);
    stats := Stats(|ms|, c, Percentage(c.wouldProcess, |ms|));
  }
}
