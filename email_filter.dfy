/**
 * The decision engine of `EmailFilter`: six stage checks, each of which
 * either rejects a message or has nothing to say, run in a fixed order; the
 * first rejection is the decision, and a message no stage rejects is
 * accepted. Confidences are in tenths (10 is the source's 1.0).
 */
module EmailFilter {
  import opened Wrappers
  import opened Text
  import opened Config
  import opened Message

  const SecondsPerDay := 86400
  const BytesPerMb := 1048576

  /** The `filter_type` tag of a result. */
  datatype FilterType = Exclusion | Time | Size | Sender | Content | Custom | Inclusive

  /** The `reason` of a result, with the value its text mentions. */
  datatype Reason =
    | ExcludedLabel(labelId: string)
    | ExcludedFolder(folder: string)
    | ExcludedSender(sender: string)
    | DateUnparseable
    | TooRecent(cutoffDays: int)
    | TooOld(minAgeDays: int)
    | TooSmall(minSizeMb: real)
    | TooLarge(maxSizeMb: real)
    | NotInWhitelist
    | MissingRequiredLabels
    | PassedAll

  datatype FilterResult = FilterResult(shouldProcess: bool, reason: Reason, confidence: nat, filterType: FilterType)

  function Reject(reason: Reason, confidence: nat, filterType: FilterType): FilterResult {
    FilterResult(false, reason, confidence, filterType)
  }

  /** The result when no stage rejects. */
  const Accept := FilterResult(true, PassedAll, 8, Inclusive)

  /** Python truthiness of an optional number: present and non-zero. */
  predicate Truthy(o: Option<int>) {
    o.Some? && o.value != 0
  }

  predicate TruthyReal(o: Option<real>) {
    o.Some? && o.value != 0.0
  }

  /** The position of the first entry of `xs` that occurs in `present`, or `|xs|` if none does. */
  function FirstIn(xs: seq<string>, present: seq<string>): (k: nat)
    ensures k <= |xs|
    ensures k < |xs| ==> xs[k] in present
    ensures forall j :: 0 <= j < k ==> xs[j] !in present
  {
    if |xs| == 0 then 0
    else if xs[0] in present then 0
    else 1 + FirstIn(xs[1..], present)
  }

  /** A sender pattern matches: its lower-cased text is a substring of the lower-cased `from`. */
  predicate SenderMatches(pattern: string, from: string) {
    IsSubstring(Lower(pattern), Lower(from))
  }

  /** The position of the first sender pattern that matches `from`, or `|xs|` if none does. */
  function FirstSenderMatch(xs: seq<string>, from: string): (k: nat)
    ensures k <= |xs|
    ensures k < |xs| ==> SenderMatches(xs[k], from)
    ensures forall j :: 0 <= j < k ==> !SenderMatches(xs[j], from)
  {
    if |xs| == 0 then 0
    else if SenderMatches(xs[0], from) then 0
    else 1 + FirstSenderMatch(xs[1..], from)
  }

  predicate HasLabelIn(xs: seq<string>, labels: seq<string>) {
    exists i :: 0 <= i < |xs| && xs[i] in labels
  }

  predicate HasSenderMatch(xs: seq<string>, from: string) {
    exists i :: 0 <= i < |xs| && SenderMatches(xs[i], from)
  }

  /**
   * `_check_exclusions`: excluded labels first, then excluded folders, then
   * excluded senders; the first entry in configuration order that applies is
   * the one reported. Every exclusion is certain (confidence 1.0).
   */
  function CheckExclusions(cfg: FilterConfig, m: EmailMetadata): (r: Option<FilterResult>)
    ensures r.Some? <==>
      HasLabelIn(cfg.excludeLabels, m.labelIds) || HasLabelIn(cfg.excludeFolders, m.labelIds) ||
      HasSenderMatch(cfg.excludeSenders, m.from)
    ensures r.Some? ==> !r.value.shouldProcess && r.value.confidence == 10 && r.value.filterType == Exclusion
    ensures HasLabelIn(cfg.excludeLabels, m.labelIds) ==>
      r == Some(Reject(ExcludedLabel(cfg.excludeLabels[FirstIn(cfg.excludeLabels, m.labelIds)]), 10, Exclusion))
    ensures !HasLabelIn(cfg.excludeLabels, m.labelIds) && HasLabelIn(cfg.excludeFolders, m.labelIds) ==>
      r == Some(Reject(ExcludedFolder(cfg.excludeFolders[FirstIn(cfg.excludeFolders, m.labelIds)]), 10, Exclusion))
    ensures (!HasLabelIn(cfg.excludeLabels, m.labelIds) && !HasLabelIn(cfg.excludeFolders, m.labelIds) &&
      HasSenderMatch(cfg.excludeSenders, m.from)) ==>
      r == Some(Reject(ExcludedSender(cfg.excludeSenders[FirstSenderMatch(cfg.excludeSenders, m.from)]), 10, Exclusion))
  {
    var li := FirstIn(cfg.excludeLabels, m.labelIds);
    if li < |cfg.excludeLabels| then
      Some(Reject(ExcludedLabel(cfg.excludeLabels[li]), 10, Exclusion))
    else
      var fi := FirstIn(cfg.excludeFolders, m.labelIds);
      if fi < |cfg.excludeFolders| then
        Some(Reject(ExcludedFolder(cfg.excludeFolders[fi]), 10, Exclusion))
      else
        var si := FirstSenderMatch(cfg.excludeSenders, m.from);
        if si < |cfg.excludeSenders| then
          Some(Reject(ExcludedSender(cfg.excludeSenders[si]), 10, Exclusion))
        else
          None
  }

  /** The message is younger than `older_than_days` allows: its date lies after the cutoff. */
  predicate TooRecentFor(cfg: FilterConfig, date: int, now: int) {
    Truthy(cfg.olderThanDays) && date > now - cfg.olderThanDays.value * SecondsPerDay
  }

  /** The message is older than `newer_than_days` allows: its date lies before the cutoff. */
  predicate TooOldFor(cfg: FilterConfig, date: int, now: int) {
    Truthy(cfg.newerThanDays) && date < now - cfg.newerThanDays.value * SecondsPerDay
  }

  /**
   * `_check_time_filters`: a message without a parsed date is never eligible
   * (confidence 0.5); otherwise each configured bound rejects with
   * certainty, `older_than_days` checked first. A date exactly on a cutoff passes.
   */
  function CheckTime(cfg: FilterConfig, m: EmailMetadata, now: int): (r: Option<FilterResult>)
    ensures m.date.None? ==> r == Some(Reject(DateUnparseable, 5, Time))
    ensures m.date.Some? ==> (r.Some? <==> TooRecentFor(cfg, m.date.value, now) || TooOldFor(cfg, m.date.value, now))
    ensures m.date.Some? && TooRecentFor(cfg, m.date.value, now) ==>
      r == Some(Reject(TooRecent(cfg.olderThanDays.value), 10, Time))
    ensures m.date.Some? && !TooRecentFor(cfg, m.date.value, now) && TooOldFor(cfg, m.date.value, now) ==>
      r == Some(Reject(TooOld(cfg.newerThanDays.value), 10, Time))
  {
    match m.date
    case None => Some(Reject(DateUnparseable, 5, Time))
    case Some(date) =>
      if Truthy(cfg.olderThanDays) && date > now - cfg.olderThanDays.value * SecondsPerDay then
        Some(Reject(TooRecent(cfg.olderThanDays.value), 10, Time))
      else if Truthy(cfg.newerThanDays) && date < now - cfg.newerThanDays.value * SecondsPerDay then
        Some(Reject(TooOld(cfg.newerThanDays.value), 10, Time))
      else
        None
  }

  /** The message size in megabytes, `size_estimate / (1024 * 1024)`. */
  function SizeMb(m: EmailMetadata): real {
    m.sizeEstimate as real / BytesPerMb as real
  }

  /** `_check_size_filters`: each configured bound rejects with confidence 0.8, the minimum checked first. */
  function CheckSize(cfg: FilterConfig, m: EmailMetadata): (r: Option<FilterResult>)
    ensures r.Some? <==>
      (TruthyReal(cfg.minSizeMb) && SizeMb(m) < cfg.minSizeMb.value) ||
      (TruthyReal(cfg.maxSizeMb) && SizeMb(m) > cfg.maxSizeMb.value)
    ensures r.Some? ==> !r.value.shouldProcess && r.value.confidence == 8 && r.value.filterType == Size
    ensures TruthyReal(cfg.minSizeMb) && SizeMb(m) < cfg.minSizeMb.value ==> r.value.reason == TooSmall(cfg.minSizeMb.value)
    ensures (!(TruthyReal(cfg.minSizeMb) && SizeMb(m) < cfg.minSizeMb.value) &&
      TruthyReal(cfg.maxSizeMb) && SizeMb(m) > cfg.maxSizeMb.value) ==> r.value.reason == TooLarge(cfg.maxSizeMb.value)
  {
    var sizeMb := SizeMb(m);
    if TruthyReal(cfg.minSizeMb) && sizeMb < cfg.minSizeMb.value then
      Some(Reject(TooSmall(cfg.minSizeMb.value), 8, Size))
    else if TruthyReal(cfg.maxSizeMb) && sizeMb > cfg.maxSizeMb.value then
      Some(Reject(TooLarge(cfg.maxSizeMb.value), 8, Size))
    else
      None
  }

  /** `_check_sender_filters`: a non-empty whitelist rejects (confidence 0.9) a sender none of its entries matches. */
  function CheckSender(cfg: FilterConfig, m: EmailMetadata): (r: Option<FilterResult>)
    ensures r.Some? <==> |cfg.includeSenders| > 0 && !HasSenderMatch(cfg.includeSenders, m.from)
    ensures r.Some? ==> r.value == Reject(NotInWhitelist, 9, Sender)
  {
    if |cfg.includeSenders| > 0 && FirstSenderMatch(cfg.includeSenders, m.from) == |cfg.includeSenders| then
      Some(Reject(NotInWhitelist, 9, Sender))
    else
      None
  }

  /** `_check_content_filters`: a non-empty list of required labels rejects (confidence 0.8) a message with none of them. */
  function CheckContent(cfg: FilterConfig, m: EmailMetadata): (r: Option<FilterResult>)
    ensures r.Some? <==> |cfg.includeLabels| > 0 && !HasLabelIn(cfg.includeLabels, m.labelIds)
    ensures r.Some? ==> r.value == Reject(MissingRequiredLabels, 8, Content)
  {
    if |cfg.includeLabels| > 0 && FirstIn(cfg.includeLabels, m.labelIds) == |cfg.includeLabels| then
      Some(Reject(MissingRequiredLabels, 8, Content))
    else
      None
  }

  /** `_check_custom_queries`: a placeholder that never rejects. */
  function CheckCustom(cfg: FilterConfig, m: EmailMetadata): Option<FilterResult> {
    None
  }

  datatype Stage = ExclusionStage | TimeStage | SizeStage | SenderStage | ContentStage | CustomStage

  /** The order in which `should_process_email` consults the stages. */
  const Stages: seq<Stage> := [ExclusionStage, TimeStage, SizeStage, SenderStage, ContentStage, CustomStage]

  function RunStage(s: Stage, cfg: FilterConfig, m: EmailMetadata, now: int): (r: Option<FilterResult>)
    ensures r.Some? ==> !r.value.shouldProcess
  {
    match s
    case ExclusionStage => CheckExclusions(cfg, m)
    case TimeStage => CheckTime(cfg, m, now)
    case SizeStage => CheckSize(cfg, m)
    case SenderStage => CheckSender(cfg, m)
    case ContentStage => CheckContent(cfg, m)
    case CustomStage => CheckCustom(cfg, m)
  }

  /** The decision as a chain: the first stage with something to say decides. */
  function Decide(cfg: FilterConfig, m: EmailMetadata, now: int): FilterResult {
    match CheckExclusions(cfg, m)
    case Some(r) => r
    case None =>
      match CheckTime(cfg, m, now)
      case Some(r) => r
      case None =>
        match CheckSize(cfg, m)
        case Some(r) => r
        case None =>
          match CheckSender(cfg, m)
          case Some(r) => r
          case None =>
            match CheckContent(cfg, m)
            case Some(r) => r
            case None =>
              match CheckCustom(cfg, m)
              case Some(r) => r
              case None => Accept
  }

  /** No stage before position `k` rejects. */
  predicate PassesBefore(cfg: FilterConfig, m: EmailMetadata, now: int, k: nat)
    requires k <= |Stages|
  {
    forall j :: 0 <= j < k ==> RunStage(Stages[j], cfg, m, now).None?
  }

  /** The chain agrees with running the stage list in order. */
  lemma DecideByStages(cfg: FilterConfig, m: EmailMetadata, now: int)
    ensures Decide(cfg, m, now).shouldProcess <==> PassesBefore(cfg, m, now, |Stages|)
    ensures PassesBefore(cfg, m, now, |Stages|) ==> Decide(cfg, m, now) == Accept
    ensures forall k :: 0 <= k < |Stages| && PassesBefore(cfg, m, now, k) && RunStage(Stages[k], cfg, m, now).Some? ==>
      Decide(cfg, m, now) == RunStage(Stages[k], cfg, m, now).value
  {
    assert Stages[0] == ExclusionStage && Stages[1] == TimeStage && Stages[2] == SizeStage;
    assert Stages[3] == SenderStage && Stages[4] == ContentStage && Stages[5] == CustomStage;
  }

  /**
   * `should_process_email`: the stages run in order; the first rejection is
   * returned unchanged and no later stage runs; with no rejection the
   * message is accepted with confidence 0.8.
   */
  method ShouldProcessEmail(cfg: FilterConfig, m: EmailMetadata, now: int) returns (r: FilterResult)
    ensures r == Decide(cfg, m, now)
    ensures r.shouldProcess <==> PassesBefore(cfg, m, now, |Stages|)
    ensures r.shouldProcess ==> r == Accept
    ensures !r.shouldProcess ==>
      (exists k :: 0 <= k < |Stages| && PassesBefore(cfg, m, now, k) && RunStage(Stages[k], cfg, m, now) == Some(r))
  {
    DecideByStages(cfg, m, now);
    var i := 0;
    while i < |Stages|
      invariant 0 <= i <= |Stages|
      invariant PassesBefore(cfg, m, now, i)
    {
      var result := RunStage(Stages[i], cfg, m, now);
      if result.Some? && !result.value.shouldProcess {
        return result.value;
      }
      i := i + 1;
    }
    return Accept;
  }

  /** A message carrying an excluded label is rejected with certainty, whatever its other fields. */
  lemma ExcludedLabelAlwaysRejected(cfg: FilterConfig, m: EmailMetadata, now: int, labelId: string)
    requires labelId in cfg.excludeLabels && labelId in m.labelIds
    ensures Decide(cfg, m, now) ==
      Reject(ExcludedLabel(cfg.excludeLabels[FirstIn(cfg.excludeLabels, m.labelIds)]), 10, Exclusion)
  {
    var i :| 0 <= i < |cfg.excludeLabels| && cfg.excludeLabels[i] == labelId;
    assert HasLabelIn(cfg.excludeLabels, m.labelIds);
  }

  /** A message in an excluded folder, or from an excluded sender, is rejected with certainty. */
  lemma ExcludedFolderOrSenderAlwaysRejected(cfg: FilterConfig, m: EmailMetadata, now: int)
    requires HasLabelIn(cfg.excludeFolders, m.labelIds) || HasSenderMatch(cfg.excludeSenders, m.from)
    ensures !Decide(cfg, m, now).shouldProcess
    ensures Decide(cfg, m, now).confidence == 10 && Decide(cfg, m, now).filterType == Exclusion
  {
  }

  /** A message whose date could not be parsed is never eligible. */
  lemma MissingDateNeverEligible(cfg: FilterConfig, m: EmailMetadata, now: int)
    requires m.date.None?
    ensures !Decide(cfg, m, now).shouldProcess
    ensures CheckExclusions(cfg, m).None? ==> Decide(cfg, m, now) == Reject(DateUnparseable, 5, Time)
  {
  }

  /** With `older_than_days = n`, a message dated exactly `n` days before `now` passes the time stage. */
  lemma OlderThanBoundaryPasses(cfg: FilterConfig, m: EmailMetadata, now: int)
    requires Truthy(cfg.olderThanDays) && !Truthy(cfg.newerThanDays)
    requires m.date == Some(now - cfg.olderThanDays.value * SecondsPerDay)
    ensures CheckTime(cfg, m, now).None?
    ensures forall d :: d > m.date.value ==> TooRecentFor(cfg, d, now)
  {
  }

  /**
   * The confidence of a decision follows its stage: 1.0 for every exclusion
   * and every out-of-window date, 0.5 for a missing date, 0.8 for size and
   * required labels, 0.9 for the sender whitelist, 0.8 on acceptance; the
   * custom stage never decides.
   */
  lemma DecisionConfidence(cfg: FilterConfig, m: EmailMetadata, now: int)
    ensures var r := Decide(cfg, m, now);
      && (r.shouldProcess <==> r.filterType == Inclusive)
      && (r.filterType == Exclusion ==> r.confidence == 10)
      && (r.filterType == Time ==> (r.confidence == 5 <==> m.date.None?) && (r.confidence == 5 || r.confidence == 10))
      && (r.filterType == Size ==> r.confidence == 8)
      && (r.filterType == Sender ==> r.confidence == 9)
      && (r.filterType == Content ==> r.confidence == 8)
      && (r.filterType == Inclusive ==> r.confidence == 8)
      && r.filterType != Custom
  {
  }

  function DemoMessage(subject: string, from: string, date: int, size: int, labels: seq<string>): EmailMetadata {
    EmailMetadata(None, None, labels, size, subject, from, "", "", "", Some(date), false, 0)
  }

  /** Under the default rules, a 400-day-old newsletter in the inbox is accepted. */
  lemma DefaultRulesAcceptOldInboxMessage(now: int)
    ensures Decide(DefaultFilterConfig(), DemoMessage("Newsletter: Weekly Updates", "newsletter@example.com",
      now - 400 * SecondsPerDay, 50000, ["INBOX"]), now) == Accept
  {
  }

  /** Under the default rules, a recent message labelled IMPORTANT is excluded with certainty. */
  lemma DefaultRulesExcludeImportant(now: int)
    ensures Decide(DefaultFilterConfig(), DemoMessage("Important Meeting Tomorrow", "boss@company.com",
      now - 10 * SecondsPerDay, 25000, ["INBOX", "IMPORTANT"]), now) == Reject(ExcludedLabel("IMPORTANT"), 10, Exclusion)
  {
  }
}
