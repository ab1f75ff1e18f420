/**
 * The configuration records of the cleaner: the filter rule set with its
 * defaults, the safety and storage settings, the generic `_update_dataclass`
 * that applies a loaded dictionary to one of them, and the checks of
 * `Config.validate`.
 */
module Config {
  import opened Wrappers

  /** The rule set after `__post_init__`: no list field is absent. */
  datatype FilterConfig = FilterConfig(
    olderThanDays: Option<int>,
    newerThanDays: Option<int>,
    minSizeMb: Option<real>,
    maxSizeMb: Option<real>,
    excludeSenders: seq<string>,
    includeSenders: seq<string>,
    newsletterDomains: seq<string>,
    excludeLabels: seq<string>,
    includeLabels: seq<string>,
    excludeFolders: seq<string>,
    customQueries: seq<string>)

  /** The dataclass's constructor arguments, where every list may be `None`. */
  datatype FilterConfigArgs = FilterConfigArgs(
    olderThanDays: Option<int>,
    newerThanDays: Option<int>,
    minSizeMb: Option<real>,
    maxSizeMb: Option<real>,
    excludeSenders: Option<seq<string>>,
    includeSenders: Option<seq<string>>,
    newsletterDomains: Option<seq<string>>,
    excludeLabels: Option<seq<string>>,
    includeLabels: Option<seq<string>>,
    excludeFolders: Option<seq<string>>,
    customQueries: Option<seq<string>>)

  const DefaultNewsletterDomains: seq<string> :=
    ["noreply@", "no-reply@", "newsletter@", "marketing@", "notifications@", "updates@", "support@"]
  const DefaultExcludeLabels: seq<string> := ["IMPORTANT", "STARRED"]
  const DefaultExcludeFolders: seq<string> := ["SENT", "DRAFTS"]

  /** `FilterConfig()` called with no arguments. */
  const DefaultFilterArgs: FilterConfigArgs :=
    FilterConfigArgs(Some(365), None, None, None, None, None, None, None, None, None, None)

  /** `FilterConfig.__post_init__`: each list that is `None` gets its default; a list passed explicitly is kept as it is. */
  function PostInit(a: FilterConfigArgs): (c: FilterConfig)
    ensures c.olderThanDays == a.olderThanDays && c.newerThanDays == a.newerThanDays
    ensures c.minSizeMb == a.minSizeMb && c.maxSizeMb == a.maxSizeMb
    ensures a.excludeSenders.Some? ==> c.excludeSenders == a.excludeSenders.value
    ensures a.excludeSenders.None? ==> c.excludeSenders == []
    ensures a.includeSenders.Some? ==> c.includeSenders == a.includeSenders.value
    ensures a.includeSenders.None? ==> c.includeSenders == []
    ensures a.newsletterDomains.Some? ==> c.newsletterDomains == a.newsletterDomains.value
    ensures a.newsletterDomains.None? ==> c.newsletterDomains == DefaultNewsletterDomains
    ensures a.excludeLabels.Some? ==> c.excludeLabels == a.excludeLabels.value
    ensures a.excludeLabels.None? ==> c.excludeLabels == DefaultExcludeLabels
    ensures a.includeLabels.Some? ==> c.includeLabels == a.includeLabels.value
    ensures a.includeLabels.None? ==> c.includeLabels == []
    ensures a.excludeFolders.Some? ==> c.excludeFolders == a.excludeFolders.value
    ensures a.excludeFolders.None? ==> c.excludeFolders == DefaultExcludeFolders
    ensures a.customQueries.Some? ==> c.customQueries == a.customQueries.value
    ensures a.customQueries.None? ==> c.customQueries == []
  {
    FilterConfig(
      a.olderThanDays, a.newerThanDays, a.minSizeMb, a.maxSizeMb,
      a.excludeSenders.GetOr([]),
      a.includeSenders.GetOr([]),
      a.newsletterDomains.GetOr(DefaultNewsletterDomains),
      a.excludeLabels.GetOr(DefaultExcludeLabels),
      a.includeLabels.GetOr([]),
      a.excludeFolders.GetOr(DefaultExcludeFolders),
      a.customQueries.GetOr([]))
  }

  /** The arguments that rebuild a completed configuration: every list passed explicitly. */
  function ExplicitArgs(c: FilterConfig): FilterConfigArgs {
    FilterConfigArgs(
      c.olderThanDays, c.newerThanDays, c.minSizeMb, c.maxSizeMb,
      Some(c.excludeSenders), Some(c.includeSenders), Some(c.newsletterDomains),
      Some(c.excludeLabels), Some(c.includeLabels), Some(c.excludeFolders), Some(c.customQueries))
  }

  /** Defaulting never touches a list that was given, even an empty one, so it is idempotent. */
  lemma PostInitKeepsExplicitLists(c: FilterConfig)
    ensures PostInit(ExplicitArgs(c)) == c
    ensures PostInit(ExplicitArgs(PostInit(ExplicitArgs(c)))) == PostInit(ExplicitArgs(c))
  {
  }

  function DefaultFilterConfig(): FilterConfig {
    PostInit(DefaultFilterArgs)
  }

  lemma DefaultFilterConfigValues()
    ensures DefaultFilterConfig().olderThanDays == Some(365)
    ensures DefaultFilterConfig().newerThanDays.None?
    ensures DefaultFilterConfig().minSizeMb.None? && DefaultFilterConfig().maxSizeMb.None?
    ensures DefaultFilterConfig().excludeLabels == ["IMPORTANT", "STARRED"]
    ensures DefaultFilterConfig().excludeFolders == ["SENT", "DRAFTS"]
    ensures |DefaultFilterConfig().newsletterDomains| == 7
    ensures DefaultFilterConfig().excludeSenders == [] && DefaultFilterConfig().includeSenders == []
    ensures DefaultFilterConfig().includeLabels == [] && DefaultFilterConfig().customQueries == []
  {
  }

  datatype StorageConfig = StorageConfig(
    basePath: string,
    exportFormat: string,
    createDateFolders: bool,
    compressArchives: bool,
    encryptionEnabled: bool,
    maxFileSizeMb: int)

  const DefaultStorageConfig := StorageConfig("./gmail_archive", "mbox", true, true, true, 100)

  datatype SafetyConfig = SafetyConfig(
    dryRunMode: bool,
    requireConfirmation: bool,
    backupVerificationLevel: string,
    softDelete: bool,
    batchSize: int,
    rateLimitDelay: real,
    maxRetries: int,
    enableRollback: bool)

  const DefaultSafetyConfig := SafetyConfig(true, true, "full", true, 50, 0.1, 3, true)

  const ValidExportFormats: seq<string> := ["mbox", "eml", "json"]

  /**
   * The safety defaults: dry-run on, soft delete on, batches of 50, three
   * retries; the default batch size and export format pass `validate`.
   */
  lemma DefaultSafetyConfigValues()
    ensures DefaultSafetyConfig.dryRunMode && DefaultSafetyConfig.softDelete
    ensures DefaultSafetyConfig.batchSize == 50 && DefaultSafetyConfig.maxRetries == 3
    ensures 0 < DefaultSafetyConfig.batchSize <= 1000
    ensures DefaultStorageConfig.exportFormat in ValidExportFormats
  {
  }

  /** The issues `validate` reports, in the order it checks for them. */
  datatype ConfigError =
    | StorageParentMissing
    | InvalidExportFormat(format: string)
    | InvalidBatchSize(size: int)
    | CredentialsDirMissing

  function CheckRank(e: ConfigError): nat {
    match e
    case StorageParentMissing => 0
    case InvalidExportFormat(_) => 1
    case InvalidBatchSize(_) => 2
    case CredentialsDirMissing => 3
  }

  /**
   * `Config.validate`. The two directory-existence checks read the file
   * system; their answers are passed in.
   */
  method Validate(storage: StorageConfig, safety: SafetyConfig, storageParentExists: bool, credentialsDirExists: bool)
    returns (errors: seq<ConfigError>)
    ensures StorageParentMissing in errors <==> !storageParentExists
    ensures InvalidExportFormat(storage.exportFormat) in errors <==> storage.exportFormat !in ValidExportFormats
    ensures InvalidBatchSize(safety.batchSize) in errors <==> safety.batchSize <= 0 || safety.batchSize > 1000
    ensures CredentialsDirMissing in errors <==> !credentialsDirExists
    ensures forall e :: e in errors ==>
      e == StorageParentMissing || e == InvalidExportFormat(storage.exportFormat) ||
      e == InvalidBatchSize(safety.batchSize) || e == CredentialsDirMissing
    ensures forall i, j :: 0 <= i < j < |errors| ==> CheckRank(errors[i]) < CheckRank(errors[j])
  {
    errors := [];
    if !storageParentExists {
      errors := errors + [StorageParentMissing];
    }
    if storage.exportFormat !in ValidExportFormats {
      errors := errors + [InvalidExportFormat(storage.exportFormat)];
    }
    if safety.batchSize <= 0 || safety.batchSize > 1000 {
      errors := errors + [InvalidBatchSize(safety.batchSize)];
    }
    if !credentialsDirExists {
      errors := errors + [CredentialsDirMissing];
    }
  }

  /**
   * The dictionary a `_update_dataclass` call applies, in its iteration order;
   * a later entry for the same key is the one that stays.
   */
  function Updated<V>(fields: map<string, V>, updates: seq<(string, V)>): map<string, V>
  {
    if |updates| == 0 then fields
    else
      var f := Updated(fields, updates[..|updates| - 1]);
      var (key, value) := updates[|updates| - 1];
      if key in f then f[key := value] else f
  }

  /** The value the last entry for `key` carries, if any. */
  function LastValueFor<V>(updates: seq<(string, V)>, key: string): Option<V>
  {
    if |updates| == 0 then None
    else if updates[|updates| - 1].0 == key then Some(updates[|updates| - 1].1)
    else LastValueFor(updates[..|updates| - 1], key)
  }

  /**
   * `_update_dataclass` sets exactly the keys that are existing fields: no
   * field appears or disappears, a field named in the dictionary takes the
   * value given for it, every other field keeps its value.
   */
  lemma {:induction false} UpdatedSetsExistingFieldsOnly<V>(fields: map<string, V>, updates: seq<(string, V)>)
    ensures Updated(fields, updates).Keys == fields.Keys
    ensures forall k :: k in fields ==>
      Updated(fields, updates)[k] == LastValueFor(updates, k).GetOr(fields[k])
  {
    if |updates| > 0 {
      UpdatedSetsExistingFieldsOnly(fields, updates[..|updates| - 1]);
    }
  }

  /** A dataclass instance, seen as its attribute names and values. */
  class DataclassInstance<V> {
    var fields: map<string, V>

    constructor (fields: map<string, V>)
      ensures this.fields == fields
    {
      this.fields := fields;
    }

    /** `Config._update_dataclass(self, update_dict)`. */
    method UpdateFrom(updates: seq<(string, V)>)
      modifies this
      ensures fields == Updated(old(fields), updates)
      ensures fields.Keys == old(fields).Keys
    {
      var i := 0;
      while i < |updates|
        invariant 0 <= i <= |updates|
        invariant fields == Updated(old(fields), updates[..i])
      {
        var (key, value) := updates[i];
        assert updates[..i + 1][..i] == updates[..i];
        if key in fields {
          fields := fields[key := value];
        }
        i := i + 1;
      }
      assert updates[..i] == updates;
      UpdatedSetsExistingFieldsOnly(old(fields), updates);
    }
  }
}
