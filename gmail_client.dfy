/**
 * The client-side bookkeeping of `GmailClient`: paging through a search,
 * fetching messages in chunks, deleting one message or many, and turning a
 * raw message into its metadata record. The Gmail service is an oracle: a
 * search sees a fixed sequence of page responses, a fetch or a delete sees
 * a fixed answer per call. The search, the batch fetch and the batch
 * delete also return the calls they made.
 */
module GmailClient {
  import opened Wrappers
  import opened Text
  import opened Message
  import opened MessageParts

  /** What `GmailAPIError` carries: which operation failed, and the service's error text. */
  datatype ApiError =
    | SearchFailed(detail: string)
    | FetchFailed(id: string, detail: string)
    | DeleteFailed(id: string, detail: string)

  // ---------------------------------------------------------------------------
  // search_messages
  // ---------------------------------------------------------------------------

  datatype MessageRef = MessageRef(id: string, threadId: string)

  /** One page of `messages.list`: `messages` and `nextPageToken` may each be absent. */
  datatype Page = Page(messages: Option<seq<MessageRef>>, nextPageToken: Option<string>)

  /** The service's answer to one list request: a page, or the text of an `HttpError`. */
  type ListResponse = Result<Page, string>

  datatype ListRequest = ListRequest(query: string, pageToken: Option<string>, maxResults: nat)

  const MaxPageSize: nat := 500

  /** `max_results` is a cap only when it is truthy; a cap of 0 means no cap. */
  predicate HasCap(maxResults: Option<nat>) {
    maxResults.Some? && maxResults.value != 0
  }

  /** The page size asked for: `min(500, max_results)` under a cap, else 500. */
  function PageSize(maxResults: Option<nat>): (n: nat)
    ensures 0 < n <= MaxPageSize
    ensures HasCap(maxResults) ==> n <= maxResults.value && (n == maxResults.value || n == MaxPageSize)
    ensures !HasCap(maxResults) ==> n == MaxPageSize
  {
    if HasCap(maxResults) && maxResults.value < MaxPageSize then maxResults.value else MaxPageSize
  }

  /** A token continues the listing only when it is present and non-empty. */
  predicate HasNextPage(page: Page) {
    page.nextPageToken.Some? && page.nextPageToken.value != ""
  }

  /** After response `j` the listing is over whatever the cap: an error, or a page with no next token. */
  predicate EndsAt(responses: seq<ListResponse>, j: nat)
    requires j < |responses|
  {
    responses[j].Err? || !HasNextPage(responses[j].value)
  }

  /** The oracle describes a listing that ends at or after response `i`. */
  predicate EndsFrom(responses: seq<ListResponse>, i: nat) {
    exists j :: i <= j < |responses| && EndsAt(responses, j)
  }

  /** The messages a response adds: none for an error or a page without `messages`. */
  function PageMessages(r: ListResponse): seq<MessageRef> {
    if r.Ok? && r.value.messages.Some? then r.value.messages.value else []
  }

  /** Every message of the responses `lo..hi`, in page order. */
  function Collected(responses: seq<ListResponse>, lo: nat, hi: nat): seq<MessageRef>
    requires lo <= hi <= |responses|
    decreases hi - lo
  {
    if lo == hi then [] else PageMessages(responses[lo]) + Collected(responses, lo + 1, hi)
  }

  datatype SearchOutcome = SearchOutcome(result: Result<seq<MessageRef>, ApiError>, pagesRead: nat)

  /**
   * The search from response `i` on, having gathered `acc` so far: the
   * result, and how many responses were consumed.
   */
  function Paginate(responses: seq<ListResponse>, maxResults: Option<nat>, i: nat, acc: seq<MessageRef>): (o: SearchOutcome)
    requires EndsFrom(responses, i)
    ensures 0 < o.pagesRead <= |responses| - i
    decreases |responses| - i
  {
    match responses[i]
    case Err(e) => SearchOutcome(Err(SearchFailed(e)), 1)
    case Ok(page) =>
      var gathered := acc + PageMessages(responses[i]);
      if page.messages.Some? && HasCap(maxResults) && |gathered| >= maxResults.value then
        SearchOutcome(Ok(gathered[..maxResults.value]), 1)
      else if !HasNextPage(page) then
        SearchOutcome(Ok(gathered), 1)
      else
        var rest := Paginate(responses, maxResults, i + 1, gathered);
        SearchOutcome(rest.result, rest.pagesRead + 1)
  }

  /** The token sent with request `k`: none for the first, then the previous page's. */
  function TokenFor(responses: seq<ListResponse>, k: nat): Option<string>
    requires k <= |responses|
  {
    if k == 0 || responses[k - 1].Err? then None else responses[k - 1].value.nextPageToken
  }

  /** The first `n` list requests of a search. */
  function ListRequests(query: string, responses: seq<ListResponse>, maxResults: Option<nat>, n: nat): (rs: seq<ListRequest>)
    requires n <= |responses|
    ensures |rs| == n
  {
    seq(n, k requires 0 <= k < n => ListRequest(query, TokenFor(responses, k), PageSize(maxResults)))
  }

  /**
   * `search_messages`: request pages until one has no next token, extending
   * the result with each page's messages and stopping at the cap.
   */
  method SearchMessages(query: string, responses: seq<ListResponse>, maxResults: Option<nat>)
    returns (result: Result<seq<MessageRef>, ApiError>, requests: seq<ListRequest>)
    requires EndsFrom(responses, 0)
    ensures var o := Paginate(responses, maxResults, 0, []);
      result == o.result && requests == ListRequests(query, responses, maxResults, o.pagesRead)
  {
    var messages: seq<MessageRef> := [];
    var pageToken: Option<string> := None;
    requests := [];
    var i := 0;
    while true
      invariant 0 <= i < |responses| && EndsFrom(responses, i)
      invariant pageToken == TokenFor(responses, i)
      invariant requests == ListRequests(query, responses, maxResults, i)
      invariant Paginate(responses, maxResults, 0, []) ==
        var o := Paginate(responses, maxResults, i, messages);
        SearchOutcome(o.result, o.pagesRead + i)
      decreases |responses| - i
    {
      var request := ListRequest(query, pageToken, PageSize(maxResults));
      requests := requests + [request];
      assert requests == ListRequests(query, responses, maxResults, i + 1);
      var response := responses[i];
      if response.Err? {
        result := Err(SearchFailed(response.error));
        return;
      }
      var page := response.value;
      ghost var before := messages;
      if page.messages.Some? {
        messages := messages + page.messages.value;
        assert messages == before + PageMessages(response);
        if HasCap(maxResults) && |messages| >= maxResults.value {
          result := Ok(messages[..maxResults.value]);
          return;
        }
      }
      assert messages == before + PageMessages(response);
      pageToken := page.nextPageToken;
      if !HasNextPage(page) {
        result := Ok(messages);
        return;
      }
      i := i + 1;
    }
  }

  /** Under a cap, the search never returns more than `max_results` messages. */
  lemma {:induction false} PaginateWithinCap(responses: seq<ListResponse>, maxResults: Option<nat>, i: nat, acc: seq<MessageRef>)
    requires EndsFrom(responses, i)
    requires HasCap(maxResults) && |acc| < maxResults.value
    ensures Paginate(responses, maxResults, i, acc).result.Ok? ==>
      |Paginate(responses, maxResults, i, acc).result.value| <= maxResults.value
    decreases |responses| - i
  {
    if responses[i].Ok? && HasNextPage(responses[i].value) {
      var gathered := acc + PageMessages(responses[i]);
      if !(responses[i].value.messages.Some? && |gathered| >= maxResults.value) {
        PaginateWithinCap(responses, maxResults, i + 1, gathered);
      }
    }
  }

  /**
   * The result is the pages' messages concatenated in page order, cut
   * short only when the cap was reached, and then to exactly the cap; and
   * the last response read ends the search: it is an error, a page with no
   * next token, or a page with `messages` that brought the total to the cap.
   */
  lemma {:induction false} PaginatePrefix(responses: seq<ListResponse>, maxResults: Option<nat>, i: nat, acc: seq<MessageRef>)
    requires EndsFrom(responses, i)
    ensures var o := Paginate(responses, maxResults, i, acc);
      var all := acc + Collected(responses, i, i + o.pagesRead);
      o.result.Ok? ==>
        (o.result.value <= all) &&
        (|o.result.value| < |all| ==> HasCap(maxResults) && |o.result.value| == maxResults.value)
    ensures var o := Paginate(responses, maxResults, i, acc);
      var last := i + o.pagesRead - 1;
      responses[last].Err? || !HasNextPage(responses[last].value) ||
      (responses[last].value.messages.Some? && HasCap(maxResults) &&
       |acc + Collected(responses, i, last + 1)| >= maxResults.value)
    decreases |responses| - i
  {
    PaginateStopsAtEnd(responses, maxResults, i, acc);
    var o := Paginate(responses, maxResults, i, acc);
    assert Collected(responses, i + 1, i + 1) == [];
    if responses[i].Ok? {
      var gathered := acc + PageMessages(responses[i]);
      var page := responses[i].value;
      if !(page.messages.Some? && HasCap(maxResults) && |gathered| >= maxResults.value) && HasNextPage(page) {
        PaginatePrefix(responses, maxResults, i + 1, gathered);
        var rest := Paginate(responses, maxResults, i + 1, gathered);
        assert acc + Collected(responses, i, i + o.pagesRead) ==
          gathered + Collected(responses, i + 1, i + 1 + rest.pagesRead);
      }
    }
  }

  /**
   * The last response the search reads ends it: an error, a page with no
   * next token, or a page with `messages` that brought the total to the cap.
   */
  lemma {:induction false} PaginateStopsAtEnd(responses: seq<ListResponse>, maxResults: Option<nat>, i: nat, acc: seq<MessageRef>)
    requires EndsFrom(responses, i)
    ensures var o := Paginate(responses, maxResults, i, acc);
      var last := i + o.pagesRead - 1;
      responses[last].Err? || !HasNextPage(responses[last].value) ||
      (responses[last].value.messages.Some? && HasCap(maxResults) &&
       |acc + Collected(responses, i, last + 1)| >= maxResults.value)
    decreases |responses| - i
  {
    if responses[i].Ok? {
      var gathered := acc + PageMessages(responses[i]);
      var page := responses[i].value;
      if !(page.messages.Some? && HasCap(maxResults) && |gathered| >= maxResults.value) && HasNextPage(page) {
        PaginateStopsAtEnd(responses, maxResults, i + 1, gathered);
        var rest := Paginate(responses, maxResults, i + 1, gathered);
        var last := i + 1 + rest.pagesRead - 1;
        assert acc + Collected(responses, i, last + 1) == gathered + Collected(responses, i + 1, last + 1);
      } else {
        assert Collected(responses, i + 1, i + 1) == [];
        assert acc + Collected(responses, i, i + 1) == gathered;
      }
    }
  }

  /**
   * Without a cap the search reads exactly up to the first response that
   * ends the listing, and returns every message of the pages before it and
   * of it, or that response's error.
   */
  lemma {:induction false} PaginateUncapped(responses: seq<ListResponse>, maxResults: Option<nat>, i: nat, acc: seq<MessageRef>, j: nat)
    requires !HasCap(maxResults)
    requires i <= j < |responses| && EndsAt(responses, j)
    requires forall k :: i <= k < j ==> !EndsAt(responses, k)
    ensures EndsFrom(responses, i)
    ensures Paginate(responses, maxResults, i, acc).pagesRead == j - i + 1
    ensures responses[j].Ok? ==> Paginate(responses, maxResults, i, acc).result == Ok(acc + Collected(responses, i, j + 1))
    ensures responses[j].Err? ==> Paginate(responses, maxResults, i, acc).result == Err(SearchFailed(responses[j].error))
    decreases j - i
  {
    assert EndsAt(responses, j);
    if i == j {
      assert Collected(responses, i + 1, i + 1) == [];
      assert Collected(responses, i, i + 1) == PageMessages(responses[i]);
    } else {
      assert !EndsAt(responses, i);
      var gathered := acc + PageMessages(responses[i]);
      PaginateUncapped(responses, maxResults, i + 1, gathered, j);
      assert acc + Collected(responses, i, j + 1) == gathered + Collected(responses, i + 1, j + 1);
    }
  }

  /**
   * Every response but the last one read was a page with a next token whose
   * messages, if any, left the total below the cap: no earlier response
   * could have ended the search.
   */
  lemma {:induction false} PaginateReadsUntilEnd(responses: seq<ListResponse>, maxResults: Option<nat>, i: nat, acc: seq<MessageRef>, k: nat)
    requires EndsFrom(responses, i)
    requires k + 1 < Paginate(responses, maxResults, i, acc).pagesRead
    ensures responses[i + k].Ok? && HasNextPage(responses[i + k].value)
    ensures !(responses[i + k].value.messages.Some? && HasCap(maxResults) &&
              |acc + Collected(responses, i, i + k + 1)| >= maxResults.value)
    decreases |responses| - i
  {
    var gathered := acc + PageMessages(responses[i]);
    if k > 0 {
      PaginateReadsUntilEnd(responses, maxResults, i + 1, gathered, k - 1);
      assert acc + Collected(responses, i, i + k + 1) == gathered + Collected(responses, i + 1, i + k + 1);
    } else {
      assert Collected(responses, i + 1, i + 1) == [];
      assert acc + Collected(responses, i, i + 1) == gathered;
    }
  }

  /** A page without `messages` adds nothing but the search goes on when it has a next token. */
  lemma EmptyPageContinues(responses: seq<ListResponse>, maxResults: Option<nat>, i: nat, acc: seq<MessageRef>)
    requires EndsFrom(responses, i)
    requires responses[i].Ok? && responses[i].value.messages.None? && HasNextPage(responses[i].value)
    ensures EndsFrom(responses, i + 1)
    ensures Paginate(responses, maxResults, i, acc).result == Paginate(responses, maxResults, i + 1, acc).result
  {
    assert acc + PageMessages(responses[i]) == acc;
  }

  /** The search fails exactly when the last response it read was an error. */
  lemma {:induction false} PaginateFailsOnError(responses: seq<ListResponse>, maxResults: Option<nat>, i: nat, acc: seq<MessageRef>)
    requires EndsFrom(responses, i)
    ensures var o := Paginate(responses, maxResults, i, acc);
      o.result.Err? <==> responses[i + o.pagesRead - 1].Err?
    ensures var o := Paginate(responses, maxResults, i, acc);
      o.result.Err? ==> o.result.error == SearchFailed(responses[i + o.pagesRead - 1].error)
    decreases |responses| - i
  {
    if responses[i].Ok? && HasNextPage(responses[i].value) {
      PaginateFailsOnError(responses, maxResults, i + 1, acc + PageMessages(responses[i]));
    }
  }

  // ---------------------------------------------------------------------------
  // get_messages_batch
  // ---------------------------------------------------------------------------

  /** A raw `messages.get` resource; each field may be absent. */
  datatype RawMessage = RawMessage(
    id: Option<string>,
    threadId: Option<string>,
    labelIds: Option<seq<string>>,
    sizeEstimate: Option<int>,
    payload: Option<Part>)

  const BatchSize: nat := 100

  /** The position of the first id whose fetch fails, or `|ids|` when none does. */
  function FirstFailure(ids: seq<string>, fetch: string -> Result<RawMessage, string>): (k: nat)
    ensures k <= |ids|
    ensures forall j :: 0 <= j < k ==> fetch(ids[j]).Ok?
    ensures k < |ids| ==> fetch(ids[k]).Err?
  {
    if |ids| == 0 then 0
    else if fetch(ids[0]).Err? then 0
    else 1 + FirstFailure(ids[1..], fetch)
  }

  /** The fetched messages of `ids`, in input order, given that none fails. */
  function Fetched(ids: seq<string>, fetch: string -> Result<RawMessage, string>): (ms: seq<RawMessage>)
    requires forall j :: 0 <= j < |ids| ==> fetch(ids[j]).Ok?
    ensures |ms| == |ids|
  {
    seq(|ids|, j requires 0 <= j < |ids| => fetch(ids[j]).value)
  }

  /** Fetching two runs of ids one after the other gives the two results one after the other. */
  lemma FetchedConcat(a: seq<string>, b: seq<string>, fetch: string -> Result<RawMessage, string>)
    requires forall j :: 0 <= j < |a| ==> fetch(a[j]).Ok?
    requires forall j :: 0 <= j < |b| ==> fetch(b[j]).Ok?
    ensures forall j :: 0 <= j < |a + b| ==> fetch((a + b)[j]).Ok?
    ensures Fetched(a + b, fetch) == Fetched(a, fetch) + Fetched(b, fetch)
  {
    assert forall j :: 0 <= j < |a + b| ==> fetch((a + b)[j]).Ok? by {
      forall j | 0 <= j < |a + b|
        ensures fetch((a + b)[j]).Ok?
      {
        if j >= |a| {
          assert (a + b)[j] == b[j - |a|];
        }
      }
    }
  }

  /** What the batch fetch promises: every message in input order, or the first failure. */
  function FetchAll(ids: seq<string>, fetch: string -> Result<RawMessage, string>): Result<seq<RawMessage>, ApiError> {
    var k := FirstFailure(ids, fetch);
    if k == |ids| then Ok(Fetched(ids, fetch))
    else Err(FetchFailed(ids[k], fetch(ids[k]).error))
  }

  /**
   * `get_messages_batch`: the ids in chunks of 100, each chunk fetched one
   * id at a time; the first failure abandons everything fetched so far.
   */
  method GetMessagesBatch(ids: seq<string>, fetch: string -> Result<RawMessage, string>)
    returns (result: Result<seq<RawMessage>, ApiError>, calls: seq<string>)
    ensures result == FetchAll(ids, fetch)
    ensures calls == ids[..if FirstFailure(ids, fetch) < |ids| then FirstFailure(ids, fetch) + 1 else |ids|]
  {
    calls := [];
    if |ids| == 0 {
      return Ok([]), calls;
    }
    var messages: seq<RawMessage> := [];
    var start := 0;
    while start < |ids|
      invariant 0 <= start <= |ids|
      invariant start <= FirstFailure(ids, fetch)
      invariant messages == Fetched(ids[..start], fetch)
      invariant calls == ids[..start]
      decreases |ids| - start
    {
      var end := if start + BatchSize < |ids| then start + BatchSize else |ids|;
      var batchIds := ids[start..end];
      var batchMessages: seq<RawMessage> := [];
      var j := 0;
      while j < |batchIds|
        invariant 0 <= j <= |batchIds|
        invariant start + j <= FirstFailure(ids, fetch)
        invariant batchMessages == Fetched(batchIds[..j], fetch)
        invariant calls == ids[..start + j]
      {
        assert batchIds[j] == ids[start + j];
        calls := calls + [batchIds[j]];
        assert calls == ids[..start + j + 1];
        match fetch(batchIds[j])
        case Err(e) =>
          assert FirstFailure(ids, fetch) == start + j;
          return Err(FetchFailed(batchIds[j], e)), calls;
        case Ok(message) =>
          assert batchIds[..j + 1] == batchIds[..j] + [batchIds[j]];
          batchMessages := batchMessages + [message];
          j := j + 1;
      }
      assert batchIds[..|batchIds|] == batchIds;
      assert forall k :: 0 <= k < |batchIds| ==> batchIds[k] == ids[start + k] && fetch(batchIds[k]).Ok?;
      assert ids[..end] == ids[..start] + batchIds;
      FetchedConcat(ids[..start], batchIds, fetch);
      messages := messages + batchMessages;
      start := end;
    }
    assert ids[..|ids|] == ids;
    result := Ok(messages);
  }

  /** A successful batch holds exactly one fetched message per id, in input order. */
  lemma FetchAllInOrder(ids: seq<string>, fetch: string -> Result<RawMessage, string>)
    ensures FetchAll(ids, fetch).Ok? <==> forall j :: 0 <= j < |ids| ==> fetch(ids[j]).Ok?
    ensures FetchAll(ids, fetch).Ok? ==>
      |FetchAll(ids, fetch).value| == |ids| &&
      forall j :: 0 <= j < |ids| ==> FetchAll(ids, fetch).value[j] == fetch(ids[j]).value
  {
  }

  /** Empty input: an empty result and no call to the service. */
  lemma FetchNothing(fetch: string -> Result<RawMessage, string>)
    ensures FetchAll([], fetch) == Ok([])
    ensures FirstFailure([], fetch) == 0
  {
    assert Fetched([], fetch) == [];
  }

  // ---------------------------------------------------------------------------
  // delete_message and delete_messages_batch
  // ---------------------------------------------------------------------------

  /** `messages.delete` removes a message for good; `messages.trash` moves it to the trash. */
  datatype DeleteCall = Delete(id: string) | Trash(id: string)

  /** The service's answer to a delete or trash call: `None` on success, else the `HttpError` text. */
  type DeleteService = DeleteCall -> Option<string>

  function DeleteCallFor(id: string, permanent: bool): (c: DeleteCall)
    ensures c.id == id
    ensures c.Delete? <==> permanent
  {
    if permanent then Delete(id) else Trash(id)
  }

  /** `delete_message`: true when the call succeeds, `GmailAPIError` when it fails. */
  function DeleteMessage(id: string, permanent: bool, execute: DeleteService): (r: Result<bool, ApiError>)
    ensures r.Ok? <==> execute(DeleteCallFor(id, permanent)).None?
    ensures r.Ok? ==> r.value
    ensures r.Err? ==> r.error == DeleteFailed(id, execute(DeleteCallFor(id, permanent)).value)
  {
    match execute(DeleteCallFor(id, permanent))
    case None => Ok(true)
    case Some(e) => Err(DeleteFailed(id, e))
  }

  predicate Deletes(id: string, permanent: bool, execute: DeleteService) {
    DeleteMessage(id, permanent, execute).Ok?
  }

  /** The ids, in input order, whose deletion succeeds (`want`) or fails (`!want`). */
  function Partition(ids: seq<string>, permanent: bool, execute: DeleteService, want: bool): seq<string> {
    if |ids| == 0 then []
    else
      var init := Partition(ids[..|ids| - 1], permanent, execute, want);
      if Deletes(ids[|ids| - 1], permanent, execute) == want then init + [ids[|ids| - 1]] else init
  }

  /**
   * `delete_messages_batch`: every id is attempted in order; a failure is
   * recorded and the loop goes on.
   */
  method DeleteMessagesBatch(ids: seq<string>, permanent: bool, execute: DeleteService)
    returns (success: seq<string>, failed: seq<string>, calls: seq<DeleteCall>)
    ensures success == Partition(ids, permanent, execute, true)
    ensures failed == Partition(ids, permanent, execute, false)
    ensures |calls| == |ids| && forall k :: 0 <= k < |ids| ==> calls[k] == DeleteCallFor(ids[k], permanent)
  {
    success, failed, calls := [], [], [];
    if |ids| == 0 {
      return;
    }
    for i := 0 to |ids|
      invariant success == Partition(ids[..i], permanent, execute, true)
      invariant failed == Partition(ids[..i], permanent, execute, false)
      invariant |calls| == i && forall k :: 0 <= k < i ==> calls[k] == DeleteCallFor(ids[k], permanent)
    {
      assert ids[..i + 1][..i] == ids[..i];
      calls := calls + [DeleteCallFor(ids[i], permanent)];
      var r := DeleteMessage(ids[i], permanent, execute);
      if r.Ok? {
        success := success + [ids[i]];
      } else {
        failed := failed + [ids[i]];
      }
    }
    assert ids[..|ids|] == ids;
  }

  /**
   * Every id lands in exactly one of the two lists: success holds only ids
   * whose deletion succeeded, failed only ids whose deletion failed, and
   * together they are the input, counted with multiplicity.
   */
  lemma {:induction false} PartitionSplitsInput(ids: seq<string>, permanent: bool, execute: DeleteService)
    ensures multiset(Partition(ids, permanent, execute, true)) + multiset(Partition(ids, permanent, execute, false)) == multiset(ids)
    ensures forall id :: id in Partition(ids, permanent, execute, true) ==> id in ids && Deletes(id, permanent, execute)
    ensures forall id :: id in Partition(ids, permanent, execute, false) ==> id in ids && !Deletes(id, permanent, execute)
  {
    if |ids| > 0 {
      var init := ids[..|ids| - 1];
      PartitionSplitsInput(init, permanent, execute);
      assert ids == init + [ids[|ids| - 1]];
    }
  }

  /** With no failures everything succeeds; with no successes everything fails. */
  lemma {:induction false} PartitionAll(ids: seq<string>, permanent: bool, execute: DeleteService, want: bool)
    requires forall k :: 0 <= k < |ids| ==> Deletes(ids[k], permanent, execute) == want
    ensures Partition(ids, permanent, execute, want) == ids
    ensures Partition(ids, permanent, execute, !want) == []
  {
    if |ids| > 0 {
      PartitionAll(ids[..|ids| - 1], permanent, execute, want);
      assert ids == ids[..|ids| - 1] + [ids[|ids| - 1]];
    }
  }

  // ---------------------------------------------------------------------------
  // extract_message_metadata
  // ---------------------------------------------------------------------------

  /** The header map built by the loop: lowercased names, a later header overwriting an earlier one. */
  function HeaderMap(hs: seq<Header>): map<string, string> {
    if |hs| == 0 then map[]
    else HeaderMap(hs[..|hs| - 1])[Lower(hs[|hs| - 1].name) := hs[|hs| - 1].value]
  }

  /** The value of the last header whose lowercased name is `key`, if any. */
  function LastHeader(hs: seq<Header>, key: string): (r: Option<string>)
    ensures r.None? <==> forall k :: 0 <= k < |hs| ==> Lower(hs[k].name) != key
    ensures r.Some? ==>
      (exists k :: 0 <= k < |hs| && Lower(hs[k].name) == key && hs[k].value == r.value &&
        forall j :: k < j < |hs| ==> Lower(hs[j].name) != key)
  {
    if |hs| == 0 then None
    else if Lower(hs[|hs| - 1].name) == key then Some(hs[|hs| - 1].value)
    else LastHeader(hs[..|hs| - 1], key)
  }

  /** Looking a name up in the map gives the last header with that name. */
  lemma {:induction false} HeaderMapIsLastHeader(hs: seq<Header>, key: string)
    ensures key in HeaderMap(hs) <==> LastHeader(hs, key).Some?
    ensures key in HeaderMap(hs) ==> HeaderMap(hs)[key] == LastHeader(hs, key).value
  {
    if |hs| > 0 {
      HeaderMapIsLastHeader(hs[..|hs| - 1], key);
    }
  }

  /** `headers.get(key, '')`. */
  function HeaderOr(headers: map<string, string>, key: string): string {
    if key in headers then headers[key] else ""
  }

  /** The header value `extract_message_metadata` reports for `key`: the last such header, else "". */
  function HeaderValue(hs: seq<Header>, key: string): string {
    LastHeader(hs, key).GetOr("")
  }

  /**
   * `extract_message_metadata`. `parseDate` stands for `parsedate_to_datetime`,
   * `None` where it raises.
   */
  method ExtractMessageMetadata(msg: RawMessage, parseDate: string -> Option<int>) returns (m: EmailMetadata)
    ensures m.id == msg.id && m.threadId == msg.threadId
    ensures m.labelIds == msg.labelIds.GetOr([]) && m.sizeEstimate == msg.sizeEstimate.GetOr(0)
    ensures var hs := msg.payload.GetOr(EmptyPart).headers;
      m.subject == HeaderValue(hs, "subject") && m.from == HeaderValue(hs, "from") &&
      m.to == HeaderValue(hs, "to") && m.dateStr == HeaderValue(hs, "date") &&
      m.messageIdHeader == HeaderValue(hs, "message-id")
    ensures m.date == if m.dateStr == "" then None else parseDate(m.dateStr)
    ensures m.hasAttachments == HasAttachments(msg.payload.GetOr(EmptyPart))
    ensures m.attachmentCount == |Attachments(msg.payload.GetOr(EmptyPart))|
  {
    var payload := msg.payload.GetOr(EmptyPart);
    var headers: map<string, string> := map[];
    for i := 0 to |payload.headers|
      invariant headers == HeaderMap(payload.headers[..i])
    {
      assert payload.headers[..i + 1][..i] == payload.headers[..i];
      headers := headers[Lower(payload.headers[i].name) := payload.headers[i].value];
    }
    assert payload.headers[..|payload.headers|] == payload.headers;
    HeaderMapIsLastHeader(payload.headers, "subject");
    HeaderMapIsLastHeader(payload.headers, "from");
    HeaderMapIsLastHeader(payload.headers, "to");
    HeaderMapIsLastHeader(payload.headers, "date");
    HeaderMapIsLastHeader(payload.headers, "message-id");
    var dateStr := HeaderOr(headers, "date");
    var date := if dateStr != "" then parseDate(dateStr) else None;
    var count := CountAttachments(payload);
    m := EmailMetadata(
      msg.id, msg.threadId, msg.labelIds.GetOr([]), msg.sizeEstimate.GetOr(0),
      HeaderOr(headers, "subject"), HeaderOr(headers, "from"), HeaderOr(headers, "to"),
      dateStr, HeaderOr(headers, "message-id"), date,
      HasAttachments(payload), count);
  }

  /** A header name matches whatever its case: `Subject` and `SUBJECT` both give the subject. */
  lemma HeaderNameCaseIgnored(hs: seq<Header>, name: string, value: string)
    requires Lower(name) == "subject"
    ensures HeaderValue(hs + [Header(name, value)], "subject") == value
  {
  }
}
