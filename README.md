# Gmail cleaner: message selection, verified

This project is a Dafny model of the message-selection engine of the Gmail
cleaner, together with the bookkeeping of its Gmail client and the
defaulting and validation of its configuration.

- **Filter engine** (`email_filter.dfy`). `should_process_email` runs six stages in a fixed order: exclusion, time, size, sender, content, custom. The first stage that rejects decides. If none rejects, the message is accepted with confidence 0.8.
- **Categorizer** (`categorizer.dfy`). `categorize_email` scores newsletter, automated, promotional and receipt signals by substring hits. Scores are in integer tenths.
- **Query builder** (`query_builder.dfy`). `build_gmail_query` renders the rule set as a Gmail search string.
- **Statistics** (`filter_stats.dfy`). `get_filter_stats` counts decisions, categories, size buckets and age buckets.
- **Gmail client** (`gmail_client.dfy`, `message_parts.dfy`). It covers:
  - paging through a search with a cap;
  - fetching messages in chunks of 100;
  - deleting one message or a batch;
  - turning a raw message into its metadata record;
  - counting attachments in the MIME part tree.
- **Configuration** (`config.dfy`). It covers:
  - `FilterConfig.__post_init__`;
  - the `SafetyConfig` defaults;
  - `_update_dataclass`, as a class whose attribute map a method updates;
  - the checks of `validate`.
- **Shared pieces**:
  - `message.dfy` holds the metadata record.
  - `text.dfy` holds ASCII lowercasing, substring search, `str.join` and decimal rendering.
  - `wrappers.dfy` holds `Option` and `Result`.

The world outside the program is represented as follows:
- **Time** is one integer timeline of seconds. `now` is a parameter and a day is 86400 seconds.
- **The Gmail service** is an oracle:
  - a search sees a fixed sequence of page responses;
  - a fetch or a delete sees a fixed answer per call.
  - The search, the batch fetch and the batch delete also return the calls they made.
- **Parsers.** `parseaddr` and `parsedate_to_datetime` are function parameters.

## Model

| member | source | states |
|---|---|---|
| EmailFilter.ShouldProcessEmail | gmail-cleaner-hello/email_filter.py:91-124 | The stages run in order. The result is the first rejecting stage's result, and every earlier stage passed. With no rejection the result is acceptance: should_process, confidence 0.8, type inclusive. |
| EmailFilter.DecideByStages | gmail-cleaner-hello/email_filter.py:102-124 | The chain of stage checks agrees with running the stage list in order and stopping at the first rejection. |
| EmailFilter.CheckExclusions | gmail-cleaner-hello/email_filter.py:126-171 | Rejects, with confidence 1.0 and type exclusion, exactly when the message has an excluded label, is in an excluded folder, or has an excluded sender. Labels are checked before folders and folders before senders. The first entry in configuration order is the one reported. |
| EmailFilter.FirstIn | gmail-cleaner-hello/email_filter.py:137-157 | Gives the position of the first configured entry present among the message's labels, or the list length if none is present. |
| EmailFilter.FirstSenderMatch | gmail-cleaner-hello/email_filter.py:159-169 | Gives the position of the first sender pattern whose lowercase form occurs in the lowercased `from`, or the list length if none occurs. |
| EmailFilter.CheckTime | gmail-cleaner-hello/email_filter.py:173-226 | A missing date rejects with confidence 0.5. Otherwise the message is rejected (confidence 1.0) exactly when a truthy `older_than_days` bound finds it too recent or a truthy `newer_than_days` bound finds it too old. `older_than_days` is checked first. |
| EmailFilter.CheckSize | gmail-cleaner-hello/email_filter.py:228-261 | Rejects with confidence 0.8 exactly when the size in MB is below a truthy minimum or above a truthy maximum. The minimum is reported first. |
| EmailFilter.CheckSender | gmail-cleaner-hello/email_filter.py:263-293 | A non-empty allow-list rejects with confidence 0.9 exactly when none of its entries matches the sender. |
| EmailFilter.CheckContent | gmail-cleaner-hello/email_filter.py:295-324 | A non-empty list of required labels rejects with confidence 0.8 exactly when the message carries none of them. |
| EmailFilter.RunStage | gmail-cleaner-hello/email_filter.py:102-115 | A stage only ever speaks to reject. |
| EmailFilter.ExcludedLabelAlwaysRejected | gmail-cleaner-hello/email_filter.py:137-146 | A message carrying any excluded label is rejected with certainty, whatever its date, size or sender. |
| EmailFilter.ExcludedFolderOrSenderAlwaysRejected | gmail-cleaner-hello/email_filter.py:148-169 | A message in an excluded folder, or from an excluded sender, is rejected with confidence 1.0 and type exclusion. |
| EmailFilter.MissingDateNeverEligible | gmail-cleaner-hello/email_filter.py:183-192 | A message without a parsed date is never processed. If no exclusion applies, the reason is the unparseable date with confidence 0.5. |
| EmailFilter.OlderThanBoundaryPasses | gmail-cleaner-hello/email_filter.py:196-209 | A message dated exactly on the `older_than_days` cutoff passes. Any later date is too recent. |
| EmailFilter.DecisionConfidence | gmail-cleaner-hello/email_filter.py:91-343 | The confidence follows the deciding stage: 1.0 for exclusions and out-of-window dates, 0.5 for a missing date, 0.8 for size and required labels, 0.9 for the sender allow-list, 0.8 on acceptance. The custom stage never decides. |
| EmailFilter.DefaultRulesAcceptOldInboxMessage | gmail-cleaner-hello/email_filter.py:102-124 | Under the default rules, a 400-day-old message in the inbox is accepted. |
| EmailFilter.DefaultRulesExcludeImportant | gmail-cleaner-hello/email_filter.py:137-146 | Under the default rules, a message labelled IMPORTANT is excluded, and the reason names IMPORTANT. |
| Categorizer.Hits | gmail-cleaner-hello/email_filter.py:393-402 | Counts the patterns that occur in the text. The count is at most the number of patterns, and it is zero exactly when no pattern occurs. |
| Categorizer.Capped | gmail-cleaner-hello/email_filter.py:380-404 | A reported score is the raw score capped at 1.0. |
| Categorizer.CountHits | gmail-cleaner-hello/email_filter.py:393-402 | The loop counts the same hits as the specification. |
| Categorizer.NewsletterScoreLoop | gmail-cleaner-hello/email_filter.py:368-377 | The newsletter loops add 0.3 for each subject pattern that matches and 0.4 for each newsletter fragment found in the sender address. The result, in tenths, is 3 times the subject hits plus 4 times the sender hits. |
| Categorizer.AutomatedScoreLoop | gmail-cleaner-hello/email_filter.py:382-388 | The automated loop adds 0.5 for each pattern found in the sender address and 0.3 for each pattern found in the subject. The result, in tenths, is 5 times the sender hits plus 3 times the subject hits. |
| Categorizer.CategorizeEmail | gmail-cleaner-hello/email_filter.py:345-407 | The scores are built as in the source:<br>- newsletter: 0.3 per subject pattern plus 0.4 per newsletter fragment in the sender;<br>- automated: 0.5 per sender pattern plus 0.3 per subject pattern;<br>- promotional: 0.2 per keyword;<br>- receipt: 0.3 per keyword.<br>Promotional holds iff at least 3 keywords hit, receipt likewise, and social is never set. |
| Categorizer.NewsletterAndAutomatedNeedTwoMatches | gmail-cleaner-hello/email_filter.py:368-391 | The newsletter and automated flags each need at least two matches in all. A single match never exceeds 0.5. |
| Categorizer.SpecialOfferIsNotPromotional | gmail-cleaner-hello/email_filter.py:393-397 | The subject "Special Offer - 50% Off!" hits exactly two promotional keywords, `offer` and `%`. It is therefore not promotional. |
| Categorizer.OfferAndPercentHits | gmail-cleaner-hello/email_filter.py:393-395 | A lowercase subject that contains `offer` and `%` and no other promotional keyword scores exactly two hits. |
| QueryBuilder.AppendPrefixed | gmail-cleaner-hello/email_filter.py:435-440 | The loop appends one prefixed clause per entry, in order. |
| QueryBuilder.AppendBounds | gmail-cleaner-hello/email_filter.py:418-432 | The time and size clauses are appended in the order older, newer, larger, smaller, each only when its bound is truthy. |
| QueryBuilder.AppendLabelClauses | gmail-cleaner-hello/email_filter.py:434-445 | Appends the excluded-label clauses, then the excluded-folder clauses, then the OR-group of required labels if there are any. |
| QueryBuilder.AppendSenderClauses | gmail-cleaner-hello/email_filter.py:447-454 | Appends the excluded-sender clauses, then the OR-group of allowed senders if there are any. |
| QueryBuilder.CollectClauses | gmail-cleaner-hello/email_filter.py:416-457 | The collected parts are the bound clauses, then the list clauses, then the custom queries. |
| QueryBuilder.BuildGmailQuery | gmail-cleaner-hello/email_filter.py:409-460 | The query is the collected clauses joined by single spaces. |
| QueryBuilder.ExcludedLabelClausesFollowBounds | gmail-cleaner-hello/email_filter.py:418-436 | There are at most four bound clauses. Right after them comes one `-label:` clause per excluded label, in order. |
| QueryBuilder.ExcludedFolderClausesFollowLabels | gmail-cleaner-hello/email_filter.py:434-440 | After the label clauses comes one `-in:` clause per excluded folder, in order. |
| QueryBuilder.CustomQueriesLast | gmail-cleaner-hello/email_filter.py:456-457 | The custom queries close the clause list, verbatim and in order. |
| QueryBuilder.ClauseCount | gmail-cleaner-hello/email_filter.py:416-457 | The number of clauses is the sum of three parts: one per truthy bound, one per list entry, and one per non-empty OR-group. |
| QueryBuilder.QueryContainsClauses | gmail-cleaner-hello/email_filter.py:460 | Every clause occurs verbatim in the query. |
| QueryBuilder.EmptyRulesEmptyQuery | gmail-cleaner-hello/email_filter.py:409-460 | A rule set that imposes nothing gives the empty query. |
| QueryBuilder.DefaultClauses | gmail-cleaner-hello/email_filter.py:416-440 | The default rules give the clauses `older_than:365d`, `-label:IMPORTANT`, `-label:STARRED`, `-in:SENT` and `-in:DRAFTS`. |
| QueryBuilder.DefaultQuery | gmail-cleaner-hello/email_filter.py:409-460 | The default rules give the query `older_than:365d -label:IMPORTANT -label:STARRED -in:SENT -in:DRAFTS`. |
| QueryBuilder.ThirtyDaysExcludingSentQuery | gmail-cleaner-hello/email_filter.py:409-460 | With `older_than_days=30` and `exclude_labels=['SENT']`, the query is `older_than:30d -label:SENT -in:SENT -in:DRAFTS`. It contains both `older_than:30d` and `-label:SENT`. |
| FilterStats.GetFilterStats | gmail-cleaner-hello/email_filter.py:462-529 | The counters are the message-by-message tally. The number processed plus the exclusions equals the number of messages. The percentage is 0 for empty input and lies in [0, 100] otherwise. |
| FilterStats.CountMessage | gmail-cleaner-hello/email_filter.py:487-521 | One loop iteration adds the message's decision, categories, size bucket and age bucket to the counters. |
| FilterStats.CountDecided | gmail-cleaner-hello/email_filter.py:489-521 | Given the decision and the categories, updates exactly the counters they select. |
| FilterStats.TallyConserves | gmail-cleaner-hello/email_filter.py:472-521 | The counts add up:<br>- processed plus excluded is the total, and processed is the number of accepted messages;<br>- the three size buckets sum to the total;<br>- the three age buckets sum to the number of dated messages;<br>- social is zero. |
| FilterStats.CountConserves | gmail-cleaner-hello/email_filter.py:487-521 | One message adds exactly one to the decision counts and one to the size buckets. It adds one to the age buckets exactly when it is dated. |
| FilterStats.TallyNeverExcludesInclusive | gmail-cleaner-hello/email_filter.py:489-494 | No exclusion is ever counted under the inclusive type. |
| FilterStats.Bump | gmail-cleaner-hello/email_filter.py:494 | `excluded_by_filter[t] = get(t, 0) + 1` raises t's count by one and no other. |
| FilterStats.ExcludedBump | gmail-cleaner-hello/email_filter.py:494 | One more exclusion raises the total over all filter types by one. |
| FilterStats.Percentage | gmail-cleaner-hello/email_filter.py:523-527 | The percentage is 0 for an empty list and lies between 0 and 100 otherwise. |
| GmailClient.PageSize | gmail-cleaner-hello/gmail_client.py:166-171 | Each request asks for `min(500, max_results)` under a truthy cap, and for 500 otherwise. |
| GmailClient.Paginate | gmail-cleaner-hello/gmail_client.py:161-188 | The search reads at least one response and never more than there are. |
| GmailClient.ListRequests | gmail-cleaner-hello/gmail_client.py:165-171 | There is one list request per response read. Each carries the previous page's token and the page size. |
| GmailClient.SearchMessages | gmail-cleaner-hello/gmail_client.py:146-193 | The loop returns the specified result and issues exactly the specified requests. An `HttpError` becomes a search failure. |
| GmailClient.PaginateWithinCap | gmail-cleaner-hello/gmail_client.py:179-182 | Under a cap, the result never holds more than `max_results` messages. |
| GmailClient.PaginatePrefix | gmail-cleaner-hello/gmail_client.py:175-187 | The result is a prefix of the read pages' messages concatenated in page order. It is shorter only when the cap was reached, and then it has exactly `max_results` entries. The last response read ends the search: it is an error, a page with no next token, or a page with `messages` that brought the total to the cap. |
| GmailClient.PaginateStopsAtEnd | gmail-cleaner-hello/gmail_client.py:175-187 | The search never stops early: the last response it reads is an error, a page whose next token is absent or empty, or a page with `messages` that brought the total to `max_results` under a cap. |
| GmailClient.PaginateUncapped | gmail-cleaner-hello/gmail_client.py:161-193 | Without a cap, the search reads exactly up to the first response that ends the listing. It returns every message of those pages in page order, or that response's error. |
| GmailClient.PaginateReadsUntilEnd | gmail-cleaner-hello/gmail_client.py:175-187 | Every response before the last one read was a page with a non-empty next-page token whose messages, if any, left the total below the cap. No earlier response could have ended the search. |
| GmailClient.EmptyPageContinues | gmail-cleaner-hello/gmail_client.py:175-187 | A page without `messages` adds nothing. The search goes on to the next page when a token is present. |
| GmailClient.PaginateFailsOnError | gmail-cleaner-hello/gmail_client.py:191-193 | The search fails exactly when the last response it read was an error, with or without a cap, and the failure carries that response's error text. |
| GmailClient.FirstFailure | gmail-cleaner-hello/gmail_client.py:239-256 | Gives the position of the first id whose fetch fails, or the number of ids if none fails. |
| GmailClient.Fetched | gmail-cleaner-hello/gmail_client.py:241-248 | Gives one fetched message per id. |
| GmailClient.GetMessagesBatch | gmail-cleaner-hello/gmail_client.py:221-259 | Fetches in chunks of 100, in input order. The result is every message, or the first failure with no partial list. The calls made are the ids up to and including the first failure. |
| GmailClient.FetchAllInOrder | gmail-cleaner-hello/gmail_client.py:239-259 | The batch succeeds iff every fetch succeeds. It then holds exactly the fetched message of each id, in input order. |
| GmailClient.FetchNothing | gmail-cleaner-hello/gmail_client.py:235-236 | Empty input gives an empty result and makes no call. |
| GmailClient.DeleteCallFor | gmail-cleaner-hello/gmail_client.py:276-288 | A permanent deletion calls delete; otherwise it calls trash. |
| GmailClient.DeleteMessage | gmail-cleaner-hello/gmail_client.py:261-296 | Returns true when the call succeeds. An `HttpError` becomes a deletion failure carrying the id. |
| GmailClient.DeleteMessagesBatch | gmail-cleaner-hello/gmail_client.py:298-332 | Attempts every id in input order, one call each. The success list holds the ids whose deletion succeeded and the failed list the rest, each in input order. |
| GmailClient.PartitionSplitsInput | gmail-cleaner-hello/gmail_client.py:315-323 | Every id lands in exactly one list: success and failed together are the input, counted with multiplicity. Success holds only successful ids and failed only failing ones. |
| GmailClient.PartitionAll | gmail-cleaner-hello/gmail_client.py:315-323 | If every deletion succeeds, the success list is the input and the failed list is empty, and the reverse when every deletion fails. |
| GmailClient.LastHeader | gmail-cleaner-hello/gmail_client.py:352-355 | Gives the value of the last header whose lowercased name is the key, or nothing when no header has that name. |
| GmailClient.HeaderMapIsLastHeader | gmail-cleaner-hello/gmail_client.py:352-355 | The header map built by the loop gives, for each name, the last header with that lowercased name. |
| GmailClient.ExtractMessageMetadata | gmail-cleaner-hello/gmail_client.py:334-379 | `label_ids` defaults to [] and `size_estimate` to 0. Each header field is its last occurrence, or "". The date is absent for an empty or unparseable `date_str`. The attachment fields agree with the part tree. |
| GmailClient.HeaderNameCaseIgnored | gmail-cleaner-hello/gmail_client.py:354 | A header name matches whatever its case. |
| MessageParts.Attachments | gmail-cleaner-hello/gmail_client.py:404-423 | Lists the attachments strictly below a part, in walk order. Every entry has a file name and an attachment id. |
| MessageParts.AttachmentsFrom | gmail-cleaner-hello/gmail_client.py:416-421 | Lists the attachments among the remaining children and below them, each one a real attachment. |
| MessageParts.CountAttachments | gmail-cleaner-hello/gmail_client.py:404-423 | The recursive counting loop returns the number of attachments at any depth below the part. |
| MessageParts.HasAttachmentsIffSome | gmail-cleaner-hello/gmail_client.py:381-402 | `_has_attachments` is true exactly when the attachment count is positive. |
| MessageParts.HasAttachmentsFromIffSome | gmail-cleaner-hello/gmail_client.py:393-402 | The same equivalence holds for the remaining children of a part. |
| Config.PostInit | gmail-cleaner-hello/config.py:42-60 | After construction no list field is absent:<br>- each list passed explicitly is kept;<br>- each absent list gets its default, e.g. `['IMPORTANT','STARRED']`, `['SENT','DRAFTS']`, the seven newsletter fragments, or [];<br>- the scalar fields are untouched. |
| Config.PostInitKeepsExplicitLists | gmail-cleaner-hello/config.py:44-60 | Defaulting keeps any list that was given, even an empty one, so running it again changes nothing. |
| Config.DefaultFilterConfigValues | gmail-cleaner-hello/config.py:21-60 | The defaults:<br>- `older_than_days` is 365;<br>- `newer_than_days` and both size bounds are None;<br>- the label and folder exclusions are the listed pairs;<br>- there are seven newsletter fragments;<br>- the other lists are empty. |
| Config.DefaultSafetyConfigValues | gmail-cleaner-hello/config.py:74-84 | Dry-run and soft delete are on, batches are 50 and retries 3. The defaults pass the batch-size and export-format checks. |
| Config.Validate | gmail-cleaner-hello/config.py:240-268 | Each error is reported iff its condition holds:<br>- the storage parent directory is missing;<br>- the export format is not mbox, eml or json;<br>- the batch size is ≤ 0 or > 1000;<br>- the credentials directory is missing.<br>No other errors appear, and they come in check order. |
| Config.UpdatedSetsExistingFieldsOnly | gmail-cleaner-hello/config.py:207-217 | No field appears or disappears. A field named in the dictionary takes the value given, and every other field keeps its value. |
| Config.DataclassInstance.UpdateFrom | gmail-cleaner-hello/config.py:215-217 | The loop leaves the instance's fields equal to the specified update, with the same field names. |
| Text.LowerIdempotent | gmail-cleaner-hello/email_filter.py:160-162 | After lowercasing no ASCII capital remains, and lowercasing again changes nothing. |
| Text.LowerConcat | gmail-cleaner-hello/email_filter.py:160-162 | Lowercasing a concatenation is the concatenation of the lowercased parts. |
| Text.IsSubstring | gmail-cleaner-hello/email_filter.py:160-162 | True iff the pattern occurs at some position of the text. |
| Text.JoinContainsParts | gmail-cleaner-hello/email_filter.py:460 | Every part occurs in `sep.join(parts)`. |
| Text.JoinEmpty | gmail-cleaner-hello/email_filter.py:460 | With a non-empty separator, the join is "" iff there are no parts, or a single empty part. |
| Text.ParseNatToString | gmail-cleaner-hello/email_filter.py:419-423 | The decimal rendering of a natural number reads back as that number. |
| Text.Trunc | gmail-cleaner-hello/email_filter.py:427-431 | `int(x)` truncates toward zero. |

## Left out

- **OAuth and the token file** (`_authenticate`), `get_profile`, `get_storage_usage` and `get_message`'s transport are not modelled. Each service call is an oracle answer.
- **Ordering of service answers.** The oracle answers a fetch or a delete by id alone. A service whose answer for the same id changes between calls is not modelled.
- **A search that never ends.** `SearchMessages` requires a listing that ends: some response is an error or has no next-page token. Under a cap, a service handing out tokens forever still stops the source once the pages carry enough messages. Without a cap, or with pages that carry no `messages`, it would make the source loop forever. The model requires the end in both cases.
- **Negative `max_results`.** This is truthy in Python and is not modelled: the cap is a natural number, and 0 means no cap, as in the source.
- **Address and date parsing** (`parseaddr`, `parsedate_to_datetime`, per RFC 5322) are parameters. A date the parser rejects is `None`.
- **Timezones and the wall clock.** `datetime.now` is the parameter `now`, and every date is an integer count of seconds. The time check builds `now` in the message's own zone (email_filter.py:194), so its comparisons never mix naive and aware values.
- FilterStats.GetFilterStats: does not model the `TypeError` that `get_filter_stats` raises at `datetime.now() - metadata['date']` (email_filter.py:515) when the date is timezone-aware. `parsedate_to_datetime` returns an aware date for any Date header with an offset other than -0000, so on real metadata the source's stats pass fails at the first such message. The model counts that message in its age bucket instead, because dates here carry no zone.
- **One clock reading per pass.** The source reads `datetime.now()` afresh in every call of the time check (email_filter.py:194), so each message of a stats pass (email_filter.py:515) sees its own instant. The model fixes one `now` for a whole pass.
- **Date range overflow.** `now - timedelta(days=N)` (email_filter.py:198, 213) raises `OverflowError` when the cutoff falls outside years 1 to 9999, for example with `older_than_days` of a million. The model computes the cutoff on unbounded integers and never fails there.
- **Exceptions other than `HttpError`.** The service oracles only model the failures the source catches as `HttpError`. Any other exception from the client library escapes `delete_message` (gmail_client.py:293) and the batch loop (gmail_client.py:323), and is not modelled.
- **Floating point.**
  - Confidences and category scores are integer tenths.
  - Sizes in MB and size bounds are exact reals.
  - `rate_limit_delay` is a real.
  - No rounding of a float sum is modelled.
- **Reason strings and the diagnostic `metadata` dictionaries** are abstract reason values. The `:.2f` formatting is not modelled.
- **Regular expressions and Unicode case folding.** Patterns are substrings and lowercasing is ASCII. The one regex that is not a literal, `promotional?`, is the substring `promotiona`.
- **Configuration files** are not modelled:
  - YAML/JSON load and save;
  - `_ensure_directories`;
  - `create_default_config_file`.
  The two directory-existence checks of `validate` are parameters.
- **Retry, rate limiting, dry-run and rollback** are not modelled. `SafetyConfig` declares them but none of the modelled code reads them.
- **Inert data and demo code:**
  - logging;
  - the `__main__` blocks;
  - the storage, auth and logging records beyond their defaults;
  - the unused `large_attachment_mb`.
- **`_update_dataclass` on attributes that are not fields.** `hasattr` also accepts methods and properties. The model only knows the instance's fields.
- **Config.PostInit** is modelled as a function from constructor arguments to the completed record, not as an in-place update of the fields. Nothing observes the record before `__post_init__` finishes.
- **EmailFilter.CheckCustom** has no contract of its own: the source's custom stage always passes. `EmailFilter.DecisionConfidence` states that it never decides.

## Notes

The source behaves as follows in three places where a reader might expect otherwise, and the model follows the source:

- The demo subject "Special Offer - 50% Off!" is not promotional. It hits two keywords, a score of 0.4, and the test is strictly greater than 0.4 (email_filter.py:395-397). `Categorizer.SpecialOfferIsNotPromotional` proves this.
- `get_messages_batch` gives up on the first failed fetch and returns no partial list, even though it fetches in chunks. Its docstring (gmail_client.py:232-233) says the same.
- `delete_messages_batch` never raises `GmailAPIError`, although its docstring lists it (gmail_client.py:309-310). Every failure reported as `HttpError` is recorded in `failed`. `GmailClient.PartitionAll` shows that even when every deletion fails, the batch returns with all ids in `failed`.
