/**
 * `EmailFilter.build_gmail_query`: the rule set rendered as a Gmail search
 * string, clause by clause in a fixed order, joined by single spaces.
 */
module QueryBuilder {
  import opened Wrappers
  import opened Text
  import opened Config
  import opened EmailFilter

  /** `[prefix + x for x in xs]`. */
  function Prefixed(prefix: string, xs: seq<string>): (r: seq<string>)
    ensures |r| == |xs|
    ensures forall i :: 0 <= i < |xs| ==> r[i] == prefix + xs[i]
  {
    seq(|xs|, i requires 0 <= i < |xs| => prefix + xs[i])
  }

  /** `f"({' OR '.join(prefix + x for x in xs)})"`. */
  function OrGroup(prefix: string, xs: seq<string>): string {
    "(" + Join(Prefixed(prefix, xs), " OR ") + ")"
  }

  /** `int(mb * 1024 * 1024)`. */
  function MbToBytes(mb: real): int {
    Trunc(mb * BytesPerMb as real)
  }

  /** The clauses for the configured time and size bounds. */
  function BoundClauses(cfg: FilterConfig): seq<string> {
    (if Truthy(cfg.olderThanDays) then ["older_than:" + IntToString(cfg.olderThanDays.value) + "d"] else []) +
    (if Truthy(cfg.newerThanDays) then ["newer_than:" + IntToString(cfg.newerThanDays.value) + "d"] else []) +
    (if TruthyReal(cfg.minSizeMb) then ["larger:" + IntToString(MbToBytes(cfg.minSizeMb.value))] else []) +
    (if TruthyReal(cfg.maxSizeMb) then ["smaller:" + IntToString(MbToBytes(cfg.maxSizeMb.value))] else [])
  }

  /** The clauses for excluded labels and folders and for required labels. */
  function LabelClauses(cfg: FilterConfig): seq<string> {
    Prefixed("-label:", cfg.excludeLabels) +
    Prefixed("-in:", cfg.excludeFolders) +
    (if |cfg.includeLabels| > 0 then [OrGroup("label:", cfg.includeLabels)] else [])
  }

  /** The clauses for excluded and allowed senders. */
  function SenderClauses(cfg: FilterConfig): seq<string> {
    Prefixed("-from:", cfg.excludeSenders) +
    (if |cfg.includeSenders| > 0 then [OrGroup("from:", cfg.includeSenders)] else [])
  }

  /** The clauses for the label, folder and sender lists and the custom queries, in emission order. */
  function ListClauses(cfg: FilterConfig): seq<string> {
    LabelClauses(cfg) + SenderClauses(cfg) + cfg.customQueries
  }

  function QueryClauses(cfg: FilterConfig): seq<string> {
    BoundClauses(cfg) + ListClauses(cfg)
  }

  /** Appends one prefixed clause per entry, in order. */
  method AppendPrefixed(parts: seq<string>, prefix: string, xs: seq<string>) returns (r: seq<string>)
    ensures r == parts + Prefixed(prefix, xs)
  {
    r := parts;
    for i := 0 to |xs|
      invariant r == parts + Prefixed(prefix, xs[..i])
    {
      assert Prefixed(prefix, xs[..i + 1]) == Prefixed(prefix, xs[..i]) + [prefix + xs[i]];
      r := r + [prefix + xs[i]];
    }
    assert xs[..|xs|] == xs;
  }

  /** The time and size clauses, appended in order. */
  method AppendBounds(cfg: FilterConfig) returns (parts: seq<string>)
    ensures parts == BoundClauses(cfg)
  {
    parts := [];
    if Truthy(cfg.olderThanDays) {
      parts := parts + ["older_than:" + IntToString(cfg.olderThanDays.value) + "d"];
    }
    if Truthy(cfg.newerThanDays) {
      parts := parts + ["newer_than:" + IntToString(cfg.newerThanDays.value) + "d"];
    }
    if TruthyReal(cfg.minSizeMb) {
      parts := parts + ["larger:" + IntToString(MbToBytes(cfg.minSizeMb.value))];
    }
    if TruthyReal(cfg.maxSizeMb) {
      parts := parts + ["smaller:" + IntToString(MbToBytes(cfg.maxSizeMb.value))];
    }
  }

  /** The label and folder clauses appended after `parts`. */
  method AppendLabelClauses(parts: seq<string>, cfg: FilterConfig) returns (r: seq<string>)
    ensures r == parts + LabelClauses(cfg)
  {
    r := AppendPrefixed(parts, "-label:", cfg.excludeLabels);
    r := AppendPrefixed(r, "-in:", cfg.excludeFolders);
    if |cfg.includeLabels| > 0 {
      r := r + [OrGroup("label:", cfg.includeLabels)];
    }
  }

  /** The sender clauses appended after `parts`. */
  method AppendSenderClauses(parts: seq<string>, cfg: FilterConfig) returns (r: seq<string>)
    ensures r == parts + SenderClauses(cfg)
  {
    r := AppendPrefixed(parts, "-from:", cfg.excludeSenders);
    if |cfg.includeSenders| > 0 {
      r := r + [OrGroup("from:", cfg.includeSenders)];
    }
  }

  /** The `query_parts` list: the clauses appended one by one. */
  method CollectClauses(cfg: FilterConfig) returns (parts: seq<string>)
    ensures parts == QueryClauses(cfg)
  {
    parts := AppendBounds(cfg);
    ghost var bounds := parts;
    parts := AppendLabelClauses(parts, cfg);
    parts := AppendSenderClauses(parts, cfg);
    parts := parts + cfg.customQueries;
    Reassociate(bounds, LabelClauses(cfg), SenderClauses(cfg), cfg.customQueries);
  }

  /** Appending group after group builds the same list as the grouped concatenation. */
  lemma Reassociate(b: seq<string>, l: seq<string>, r: seq<string>, c: seq<string>)
    ensures b + l + r + c == b + (l + r + c)
  {
  }

  /** `build_gmail_query`: the collected clauses joined with single spaces. */
  method BuildGmailQuery(cfg: FilterConfig) returns (q: string)
    ensures q == Join(QueryClauses(cfg), " ")
  {
    var parts := CollectClauses(cfg);
    q := Join(parts, " ");
  }

  /** The clauses after the excluded labels. */
  function AfterLabels(cfg: FilterConfig): seq<string> {
    Prefixed("-in:", cfg.excludeFolders) +
    (if |cfg.includeLabels| > 0 then [OrGroup("label:", cfg.includeLabels)] else []) +
    SenderClauses(cfg) + cfg.customQueries
  }

  lemma LabelsAfterBounds(cfg: FilterConfig)
    ensures QueryClauses(cfg) == BoundClauses(cfg) + Prefixed("-label:", cfg.excludeLabels) + AfterLabels(cfg)
  {
    var group := if |cfg.includeLabels| > 0 then [OrGroup("label:", cfg.includeLabels)] else [];
    var folders := Prefixed("-in:", cfg.excludeFolders);
    Regroup(BoundClauses(cfg), Prefixed("-label:", cfg.excludeLabels), folders, group, SenderClauses(cfg), cfg.customQueries);
    assert AfterLabels(cfg) == folders + (group + SenderClauses(cfg) + cfg.customQueries);
  }

  /** After the time and size clauses (at most four) comes one `-label:` clause per excluded label, in order. */
  lemma ExcludedLabelClausesFollowBounds(cfg: FilterConfig)
    ensures |BoundClauses(cfg)| <= 4
    ensures forall i :: 0 <= i < |cfg.excludeLabels| ==>
      QueryClauses(cfg)[|BoundClauses(cfg)| + i] == "-label:" + cfg.excludeLabels[i]
  {
    LabelsAfterBounds(cfg);
    forall i | 0 <= i < |cfg.excludeLabels|
      ensures QueryClauses(cfg)[|BoundClauses(cfg)| + i] == "-label:" + cfg.excludeLabels[i]
    {
      IndexMiddle(BoundClauses(cfg), Prefixed("-label:", cfg.excludeLabels), AfterLabels(cfg), i);
    }
  }

  /** The clauses after the excluded folders. */
  function AfterFolders(cfg: FilterConfig): seq<string> {
    (if |cfg.includeLabels| > 0 then [OrGroup("label:", cfg.includeLabels)] else []) +
    SenderClauses(cfg) + cfg.customQueries
  }

  lemma FoldersAfterLabels(cfg: FilterConfig)
    ensures QueryClauses(cfg) ==
      (BoundClauses(cfg) + Prefixed("-label:", cfg.excludeLabels)) + Prefixed("-in:", cfg.excludeFolders) + AfterFolders(cfg)
  {
    var group := if |cfg.includeLabels| > 0 then [OrGroup("label:", cfg.includeLabels)] else [];
    Regroup(BoundClauses(cfg), Prefixed("-label:", cfg.excludeLabels), Prefixed("-in:", cfg.excludeFolders),
      group, SenderClauses(cfg), cfg.customQueries);
  }

  /** Regrouping the concatenation of the clause groups. */
  lemma Regroup(b: seq<string>, l: seq<string>, f: seq<string>, g: seq<string>, r: seq<string>, c: seq<string>)
    ensures b + ((l + f + g) + r + c) == (b + l) + f + (g + r + c)
  {
  }

  /** An index into the middle of a three-way concatenation. */
  lemma IndexMiddle(pre: seq<string>, mid: seq<string>, post: seq<string>, i: int)
    requires 0 <= i < |mid|
    ensures (pre + mid + post)[|pre| + i] == mid[i]
  {
  }

  /** Then comes one `-in:` clause per excluded folder, in order. */
  lemma ExcludedFolderClausesFollowLabels(cfg: FilterConfig)
    ensures forall i :: 0 <= i < |cfg.excludeFolders| ==>
      QueryClauses(cfg)[|BoundClauses(cfg)| + |cfg.excludeLabels| + i] == "-in:" + cfg.excludeFolders[i]
  {
    var pre := BoundClauses(cfg) + Prefixed("-label:", cfg.excludeLabels);
    var folders := Prefixed("-in:", cfg.excludeFolders);
    FoldersAfterLabels(cfg);
    forall i | 0 <= i < |cfg.excludeFolders|
      ensures QueryClauses(cfg)[|BoundClauses(cfg)| + |cfg.excludeLabels| + i] == "-in:" + cfg.excludeFolders[i]
    {
      IndexMiddle(pre, folders, AfterFolders(cfg), i);
    }
  }



  /** The custom queries close the list, verbatim and in order. */
  lemma CustomQueriesLast(cfg: FilterConfig)
    ensures |QueryClauses(cfg)| >= |cfg.customQueries|
    ensures QueryClauses(cfg)[|QueryClauses(cfg)| - |cfg.customQueries|..] == cfg.customQueries
  {
    assert QueryClauses(cfg) == (BoundClauses(cfg) + LabelClauses(cfg) + SenderClauses(cfg)) + cfg.customQueries;
  }

  /** The number of clauses: one per active bound, one per list entry, one per non-empty OR-group. */
  lemma ClauseCount(cfg: FilterConfig)
    ensures |QueryClauses(cfg)| ==
      (if Truthy(cfg.olderThanDays) then 1 else 0) + (if Truthy(cfg.newerThanDays) then 1 else 0) +
      (if TruthyReal(cfg.minSizeMb) then 1 else 0) + (if TruthyReal(cfg.maxSizeMb) then 1 else 0) +
      |cfg.excludeLabels| + |cfg.excludeFolders| + (if |cfg.includeLabels| > 0 then 1 else 0) +
      |cfg.excludeSenders| + (if |cfg.includeSenders| > 0 then 1 else 0) + |cfg.customQueries|
  {
  }

  /** Every clause appears verbatim in the query. */
  lemma QueryContainsClauses(cfg: FilterConfig)
    ensures forall k :: 0 <= k < |QueryClauses(cfg)| ==> IsSubstring(QueryClauses(cfg)[k], Join(QueryClauses(cfg), " "))
  {
    forall k | 0 <= k < |QueryClauses(cfg)|
      ensures IsSubstring(QueryClauses(cfg)[k], Join(QueryClauses(cfg), " "))
    {
      JoinContainsParts(QueryClauses(cfg), " ", k);
    }
  }

  /** A rule set that imposes nothing yields the empty query. */
  lemma EmptyRulesEmptyQuery(cfg: FilterConfig)
    requires !Truthy(cfg.olderThanDays) && !Truthy(cfg.newerThanDays)
    requires !TruthyReal(cfg.minSizeMb) && !TruthyReal(cfg.maxSizeMb)
    requires cfg.excludeLabels == [] && cfg.excludeFolders == [] && cfg.includeLabels == []
    requires cfg.excludeSenders == [] && cfg.includeSenders == [] && cfg.customQueries == []
    ensures Join(QueryClauses(cfg), " ") == ""
  {
    assert QueryClauses(cfg) == [];
  }

  /** The default rule set's clauses. */
  lemma DefaultClauses()
    ensures QueryClauses(DefaultFilterConfig()) ==
      ["older_than:365d", "-label:IMPORTANT", "-label:STARRED", "-in:SENT", "-in:DRAFTS"]
  {
    var cfg := DefaultFilterConfig();
    DefaultFilterConfigValues();
    assert "older_than:" + IntToString(365) + "d" == "older_than:365d";
    assert Truthy(cfg.olderThanDays) && !Truthy(cfg.newerThanDays);
    assert !TruthyReal(cfg.minSizeMb) && !TruthyReal(cfg.maxSizeMb);
    assert BoundClauses(cfg) == ["older_than:365d"] + [] + [] + [];
    var labels := Prefixed("-label:", cfg.excludeLabels);
    assert labels[0] == "-label:IMPORTANT" && labels[1] == "-label:STARRED";
    var folders := Prefixed("-in:", cfg.excludeFolders);
    assert folders[0] == "-in:SENT" && folders[1] == "-in:DRAFTS";
    assert ListClauses(cfg) == labels + folders;
  }

  /** The default rule set's query. */
  lemma DefaultQuery()
    ensures Join(QueryClauses(DefaultFilterConfig()), " ") ==
      "older_than:365d -label:IMPORTANT -label:STARRED -in:SENT -in:DRAFTS"
  {
    DefaultClauses();
    JoinDefaultClauses();
  }

  lemma JoinFolderClauses()
    ensures Join(["-in:SENT", "-in:DRAFTS"], " ") == "-in:SENT -in:DRAFTS"
  {
    JoinCons("-in:SENT", ["-in:DRAFTS"], " ");
    assert ["-in:SENT"] + ["-in:DRAFTS"] == ["-in:SENT", "-in:DRAFTS"];
  }

  lemma JoinStarredTail()
    ensures Join(["-label:STARRED", "-in:SENT", "-in:DRAFTS"], " ") == "-label:STARRED -in:SENT -in:DRAFTS"
  {
    JoinFolderClauses();
    JoinCons("-label:STARRED", ["-in:SENT", "-in:DRAFTS"], " ");
    assert ["-label:STARRED"] + ["-in:SENT", "-in:DRAFTS"] == ["-label:STARRED", "-in:SENT", "-in:DRAFTS"];
    StarredText();
  }

  lemma StarredText()
    ensures "-label:STARRED" + " " + "-in:SENT -in:DRAFTS" == "-label:STARRED -in:SENT -in:DRAFTS"
  {
  }

  lemma JoinImportantTail()
    ensures Join(["-label:IMPORTANT", "-label:STARRED", "-in:SENT", "-in:DRAFTS"], " ") ==
      "-label:IMPORTANT -label:STARRED -in:SENT -in:DRAFTS"
  {
    JoinStarredTail();
    JoinCons("-label:IMPORTANT", ["-label:STARRED", "-in:SENT", "-in:DRAFTS"], " ");
    assert ["-label:IMPORTANT"] + ["-label:STARRED", "-in:SENT", "-in:DRAFTS"] ==
      ["-label:IMPORTANT", "-label:STARRED", "-in:SENT", "-in:DRAFTS"];
    ImportantText();
  }

  lemma ImportantText()
    ensures "-label:IMPORTANT" + " " + "-label:STARRED -in:SENT -in:DRAFTS" ==
      "-label:IMPORTANT -label:STARRED -in:SENT -in:DRAFTS"
  {
    assert "-label:IMPORTANT -label:STARRED -in:SENT -in:DRAFTS" ==
      "-label:IMPORTANT -label:STARRED" + " " + "-in:SENT -in:DRAFTS";
  }

  lemma JoinDefaultClauses()
    ensures Join(["older_than:365d", "-label:IMPORTANT", "-label:STARRED", "-in:SENT", "-in:DRAFTS"], " ") ==
      "older_than:365d -label:IMPORTANT -label:STARRED -in:SENT -in:DRAFTS"
  {
    JoinImportantTail();
    JoinCons("older_than:365d", ["-label:IMPORTANT", "-label:STARRED", "-in:SENT", "-in:DRAFTS"], " ");
    assert ["older_than:365d"] + ["-label:IMPORTANT", "-label:STARRED", "-in:SENT", "-in:DRAFTS"] ==
      ["older_than:365d", "-label:IMPORTANT", "-label:STARRED", "-in:SENT", "-in:DRAFTS"];
    DefaultQueryText();
  }

  lemma DefaultQueryText()
    ensures "older_than:365d" + " " + "-label:IMPORTANT -label:STARRED -in:SENT -in:DRAFTS" ==
      "older_than:365d -label:IMPORTANT -label:STARRED -in:SENT -in:DRAFTS"
  {
    assert "-label:IMPORTANT -label:STARRED -in:SENT -in:DRAFTS" ==
      "-label:IMPORTANT -label:STARRED" + " " + "-in:SENT -in:DRAFTS";
    assert "older_than:365d -label:IMPORTANT -label:STARRED -in:SENT -in:DRAFTS" ==
      "older_than:365d -label:IMPORTANT -label:STARRED" + " " + "-in:SENT -in:DRAFTS";
    assert "older_than:365d -label:IMPORTANT -label:STARRED" ==
      "older_than:365d" + " " + "-label:IMPORTANT -label:STARRED";
  }

  /** `FilterConfig(older_than_days=30, exclude_labels=['SENT'])`, which keeps the default folders. */
  function ThirtyDaysExcludingSentConfig(): FilterConfig {
    PostInit(DefaultFilterArgs.(olderThanDays := Some(30), excludeLabels := Some(["SENT"])))
  }

  lemma ThirtyDaysExcludingSentClauses()
    ensures QueryClauses(ThirtyDaysExcludingSentConfig()) == ["older_than:30d", "-label:SENT", "-in:SENT", "-in:DRAFTS"]
  {
    var cfg := ThirtyDaysExcludingSentConfig();
    assert cfg.olderThanDays == Some(30) && !Truthy(cfg.newerThanDays);
    assert cfg.excludeLabels == ["SENT"] && cfg.excludeFolders == ["SENT", "DRAFTS"];
    assert "older_than:" + IntToString(30) + "d" == "older_than:30d";
    assert !TruthyReal(cfg.minSizeMb) && !TruthyReal(cfg.maxSizeMb);
    assert BoundClauses(cfg) == ["older_than:30d"] + [] + [] + [];
    var labels := Prefixed("-label:", cfg.excludeLabels);
    assert labels[0] == "-label:SENT";
    var folders := Prefixed("-in:", cfg.excludeFolders);
    assert folders[0] == "-in:SENT" && folders[1] == "-in:DRAFTS";
    assert ListClauses(cfg) == labels + folders;
  }

  /** Its query holds both `older_than:30d` and `-label:SENT`, besides the default folder exclusions. */
  lemma ThirtyDaysExcludingSentQuery()
    ensures Join(QueryClauses(ThirtyDaysExcludingSentConfig()), " ") == "older_than:30d -label:SENT -in:SENT -in:DRAFTS"
    ensures IsSubstring("older_than:30d", Join(QueryClauses(ThirtyDaysExcludingSentConfig()), " "))
    ensures IsSubstring("-label:SENT", Join(QueryClauses(ThirtyDaysExcludingSentConfig()), " "))
  {
    ThirtyDaysExcludingSentClauses();
    JoinThirtyDaysClauses();
    JoinContainsParts(["older_than:30d", "-label:SENT", "-in:SENT", "-in:DRAFTS"], " ", 0);
    JoinContainsParts(["older_than:30d", "-label:SENT", "-in:SENT", "-in:DRAFTS"], " ", 1);
  }

  lemma JoinSentLabelTail()
    ensures Join(["-label:SENT", "-in:SENT", "-in:DRAFTS"], " ") == "-label:SENT -in:SENT -in:DRAFTS"
  {
    JoinFolderClauses();
    JoinCons("-label:SENT", ["-in:SENT", "-in:DRAFTS"], " ");
    assert ["-label:SENT"] + ["-in:SENT", "-in:DRAFTS"] == ["-label:SENT", "-in:SENT", "-in:DRAFTS"];
    SentLabelText();
  }

  lemma SentLabelText()
    ensures "-label:SENT" + " " + "-in:SENT -in:DRAFTS" == "-label:SENT -in:SENT -in:DRAFTS"
  {
  }

  lemma JoinThirtyDaysClauses()
    ensures Join(["older_than:30d", "-label:SENT", "-in:SENT", "-in:DRAFTS"], " ") ==
      "older_than:30d -label:SENT -in:SENT -in:DRAFTS"
  {
    JoinSentLabelTail();
    JoinCons("older_than:30d", ["-label:SENT", "-in:SENT", "-in:DRAFTS"], " ");
    assert ["older_than:30d"] + ["-label:SENT", "-in:SENT", "-in:DRAFTS"] ==
      ["older_than:30d", "-label:SENT", "-in:SENT", "-in:DRAFTS"];
    ThirtyDaysText();
  }

  lemma ThirtyDaysText()
    ensures "older_than:30d" + " " + "-label:SENT -in:SENT -in:DRAFTS" == "older_than:30d -label:SENT -in:SENT -in:DRAFTS"
  {
  }
}
