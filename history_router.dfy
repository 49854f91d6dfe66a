/**
 * backend/routers/history.py: the `/api/history` routes over a
 * `StorageService`. An `HTTPException` the route raises is the `Err` case of
 * the reply; a success is its `Ok` case.
 */
module HistoryRouter {
  import opened Base
  import opened Sequences
  import opened Schemas
  import opened Storage

  /** `k` is the position of the first record of `history` with the id. */
  predicate FirstWithId(history: seq<HistoryRecord>, id: string, k: int)
  {
    && 0 <= k < |history|
    && history[k].id == id
    && forall j :: 0 <= j < k ==> history[j].id != id
  }

  /** The search loop of `get_history_record`: the first record carrying the id, if any. */
  method FindRecord(history: seq<HistoryRecord>, id: string) returns (found: Option<HistoryRecord>)
    ensures found.None? <==> forall k :: 0 <= k < |history| ==> history[k].id != id
    ensures found.Some? ==> exists k :: FirstWithId(history, id, k) && history[k] == found.value
  {
    for i := 0 to |history|
      invariant forall j :: 0 <= j < i ==> history[j].id != id
    {
      if history[i].id == id {
        assert FirstWithId(history, id, i);
        return Some(history[i]);
      }
    }
    return None;
  }

  /** `get_history`: the whole stored ledger. */
  method GetHistory(store: StorageService) returns (response: HistoryResponse)
    ensures response.history == LoadedHistory(store.historyFile)
  {
    var history := store.LoadHistory();
    response := HistoryResponse(history);
  }

  /** `get_history_record`: the first record with the id, or 404 when no record has it. */
  method GetHistoryRecord(store: StorageService, id: string) returns (r: Result<HistoryRecord, HttpException>)
    ensures var h := LoadedHistory(store.historyFile);
      r.Err? <==> forall k :: 0 <= k < |h| ==> h[k].id != id
    ensures r.Err? ==> r.error == HttpException(404, "History record " + id + " not found")
    ensures var h := LoadedHistory(store.historyFile);
      r.Ok? ==> exists k :: FirstWithId(h, id, k) && h[k] == r.value
  {
    var history := store.LoadHistory();
    var found := FindRecord(history, id);
    if found.None? {
      return Err(HttpException(404, "History record " + id + " not found"));
    }
    return Ok(found.value);
  }

  /**
   * `delete_history_record`: every record with the id is dropped and the rest
   * saved; when no record had the id the reply is 404 and nothing is saved.
   */
  method DeleteHistoryRecord(store: StorageService, id: string) returns (r: Result<string, HttpException>)
    modifies store
    ensures store.projectsFile == old(store.projectsFile)
    ensures var h := LoadedHistory(old(store.historyFile));
      r.Err? <==> forall k :: 0 <= k < |h| ==> h[k].id != id
    ensures r.Err? ==>
      r.error == HttpException(404, "Record " + id + " not found") && store.historyFile == old(store.historyFile)
    ensures r.Ok? ==>
      r.value == "Record " + id + " deleted"
      && store.historyFile == Written(WithoutId(LoadedHistory(old(store.historyFile)), id))
  {
    var history := store.LoadHistory();
    var newHistory := WithoutId(history, id);
    NotFoundIffUnchanged(history, id);
    if |newHistory| == |history| {
      return Err(HttpException(404, "Record " + id + " not found"));
    }
    store.SaveHistory(newHistory);
    return Ok("Record " + id + " deleted");
  }

  /** The length test of `delete_history_record` detects exactly the absence of the id. */
  lemma NotFoundIffUnchanged(h: seq<HistoryRecord>, id: string)
    ensures |WithoutId(h, id)| == |h| <==> forall k :: 0 <= k < |h| ==> h[k].id != id
  {
    FilterKeepsAll(h, OtherId(id));
    assert forall k :: 0 <= k < |h| ==> (OtherId(id)(h[k]) <==> h[k].id != id);
  }

  /**
   * The filter drops exactly the records with the id: every other record
   * keeps its number of occurrences, and none with the id is left.
   */
  lemma DeleteRemovesExactly(h: seq<HistoryRecord>, id: string)
    ensures forall x :: x in WithoutId(h, id) ==> x.id != id
    ensures forall x: HistoryRecord :: x.id != id ==> multiset(WithoutId(h, id))[x] == multiset(h)[x]
  {
    forall x: HistoryRecord | x.id != id
      ensures multiset(WithoutId(h, id))[x] == multiset(h)[x]
    {
      FilterCount(h, OtherId(id), x);
    }
  }

  /** The filter keeps the survivors in order: it works piecewise over any split of the ledger. */
  lemma DeleteKeepsOrder(a: seq<HistoryRecord>, b: seq<HistoryRecord>, id: string)
    ensures WithoutId(a + b, id) == WithoutId(a, id) + WithoutId(b, id)
  {
    FilterConcat(a, b, OtherId(id));
  }

  /** Deleting an id that no record carries leaves the ledger as it was. */
  lemma DeleteAbsentIsIdentity(h: seq<HistoryRecord>, id: string)
    requires forall k :: 0 <= k < |h| ==> h[k].id != id
    ensures WithoutId(h, id) == h
  {
    FilterAll(h, OtherId(id));
  }
}
