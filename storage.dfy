/**
 * backend/services/storage.py: the snapshot store (projects.json) and the
 * weekly history ledger (history.json). Each file is a field of
 * `StorageService`; a save overwrites the whole document. The clock reading
 * `datetime.utcnow().isoformat()` is the parameter `now`.
 */
module Storage {
  import opened Base
  import opened Sequences
  import opened Schemas

  /** What a JSON file on disk holds: nothing, something that does not decode, or a document. */
  datatype StoredFile<T> = Absent | Unreadable | Written(content: T)

  /** The snapshot document `{"last_updated", "projects", "total_projects"}`. */
  datatype ProjectsDocument = ProjectsDocument(
    last_updated: string,
    projects: seq<ProjectCreate>,
    total_projects: int)

  /** `_get_default_data`: an empty snapshot stamped `now`. */
  function DefaultDocument(now: string): (d: ProjectsDocument)
    ensures d.projects == [] && d.total_projects == 0 && d.last_updated == now
  {
    ProjectsDocument(now, [], 0)
  }

  /** What `load_projects` returns for the file's state: the stored document, else the default one. */
  function LoadedProjects(file: StoredFile<ProjectsDocument>, now: string): ProjectsDocument
  {
    if file.Written? then file.content else DefaultDocument(now)
  }

  /** What `load_history` returns for the file's state: the stored records, else none. */
  function LoadedHistory(file: StoredFile<seq<HistoryRecord>>): seq<HistoryRecord>
  {
    if file.Written? then file.content else []
  }

  // ---------------------------------------------------------------------------
  // The ledger update of add_history_record

  const MAX_HISTORY := 12

  function RecordId(r: HistoryRecord): string
  {
    r.id
  }

  /** No two records of the ledger share an id. */
  predicate UniqueIds(h: seq<HistoryRecord>)
  {
    UniqueBy(h, RecordId)
  }

  /** `[i for i, h in enumerate(history) if h.id == id]`: the matching positions, ascending. */
  function MatchingIndices(h: seq<HistoryRecord>, id: string): (ix: seq<nat>)
    ensures forall k :: 0 <= k < |ix| ==> ix[k] < |h| && h[ix[k]].id == id
    ensures forall i :: 0 <= i < |h| && h[i].id == id ==> i in ix
    ensures forall k, l :: 0 <= k < l < |ix| ==> ix[k] < ix[l]
  {
    if h == [] then []
    else
      var init := MatchingIndices(h[..|h| - 1], id);
      assert forall i :: 0 <= i < |h| - 1 ==> h[..|h| - 1][i] == h[i];
      init + (if h[|h| - 1].id == id then [|h| - 1] else [])
  }

  /** `history.pop(i)` on a valid index. */
  function RemoveAt(h: seq<HistoryRecord>, i: nat): seq<HistoryRecord>
    requires i < |h|
  {
    h[..i] + h[i + 1..]
  }

  /**
   * `for i in existing: history.pop(i)`, as written: each pop shifts the later
   * records down, and a pop past the end raises `IndexError` (`None`).
   */
  function PopEach(h: seq<HistoryRecord>, ix: seq<nat>): Option<seq<HistoryRecord>>
  {
    if ix == [] then Some(h)
    else if ix[0] >= |h| then None
    else PopEach(RemoveAt(h, ix[0]), ix[1..])
  }

  /** `add_history_record`'s new ledger as written, or `None` when it raises. */
  function Upsert(h: seq<HistoryRecord>, record: HistoryRecord): Option<seq<HistoryRecord>>
  {
    match PopEach(h, MatchingIndices(h, record.id))
    case None => None
    case Some(rest) => Some(Take([record] + rest, MAX_HISTORY))
  }

  function OtherId(id: string): HistoryRecord -> bool
  {
    (r: HistoryRecord) => r.id != id
  }

  /** `str()` of the `IndexError` that `list.pop` raises past the end of the list. */
  const POP_OUT_OF_RANGE := "pop index out of range"

  /** The records whose id differs from `id`, in order. */
  function WithoutId(h: seq<HistoryRecord>, id: string): seq<HistoryRecord>
  {
    Filter(h, OtherId(id))
  }

  /** The intended update: drop every record with the new id, put the new one first, keep 12. */
  function UpsertIntended(h: seq<HistoryRecord>, record: HistoryRecord): seq<HistoryRecord>
  {
    Take([record] + WithoutId(h, record.id), MAX_HISTORY)
  }

  /**
   * After the intended update the new record is first and is the only one
   * with its id, the ledger holds at most 12 records, and the others are the
   * surviving records in their previous order.
   */
  lemma UpsertIntendedShape(h: seq<HistoryRecord>, record: HistoryRecord)
    ensures var r := UpsertIntended(h, record);
      && 1 <= |r| <= MAX_HISTORY && r[0] == record
      && |r| == (if |WithoutId(h, record.id)| < MAX_HISTORY then |WithoutId(h, record.id)| + 1 else MAX_HISTORY)
      && (forall k :: 1 <= k < |r| ==> r[k].id != record.id)
      && |r| - 1 <= |WithoutId(h, record.id)|
      && r[1..] == WithoutId(h, record.id)[..|r| - 1]
      && (forall x :: x in r[1..] ==> x in h)
  {
    var r := UpsertIntended(h, record);
    var w := WithoutId(h, record.id);
    assert r[1..] == w[..|r| - 1];
    forall k | 1 <= k < |r| ensures r[k].id != record.id {
      assert r[k] == w[k - 1];
      assert w[k - 1] in w;
    }
  }

  /** The intended update keeps record ids unique. */
  lemma UpsertIntendedUnique(h: seq<HistoryRecord>, record: HistoryRecord)
    requires UniqueIds(h)
    ensures UniqueIds(UpsertIntended(h, record))
  {
    var w := WithoutId(h, record.id);
    FilterUniqueBy(h, OtherId(record.id), RecordId);
    assert record.id !in KeySet(w, RecordId) by {
      forall k | 0 <= k < |w| ensures RecordId(w[k]) != record.id {
        assert w[k] in w;
      }
    }
    UniqueByCons(record, w, RecordId);
    var full := [record] + w;
    assert UniqueBy(full, RecordId);
    var r := UpsertIntended(h, record);
    assert r == full[..|r|];
    assert forall i, j :: 0 <= i < j < |r| ==> r[i] == full[i] && r[j] == full[j];
  }

  /** A thirteenth week with a new id pushes the oldest record (the last) out of a full ledger. */
  lemma UpsertIntendedDropsOldest(h: seq<HistoryRecord>, record: HistoryRecord)
    requires |h| == MAX_HISTORY
    requires forall i :: 0 <= i < |h| ==> h[i].id != record.id
    ensures UpsertIntended(h, record) == [record] + h[..MAX_HISTORY - 1]
  {
    FilterAll(h, OtherId(record.id));
  }

  /** Recording the same week twice leaves the ledger as if only the later record had been added. */
  lemma UpsertIntendedSameWeek(h: seq<HistoryRecord>, first: HistoryRecord, second: HistoryRecord)
    requires first.id == second.id
    ensures UpsertIntended(UpsertIntended(h, first), second) == UpsertIntended(h, second)
  {
    var id := first.id;
    var w := WithoutId(h, id);
    var kept := Take(w, MAX_HISTORY - 1);
    TakeCons(first, w, MAX_HISTORY - 1);
    forall i | 0 <= i < |kept| ensures OtherId(id)(kept[i]) {
      assert kept[i] == w[i];
      assert w[i] in w;
    }
    FilterAll(kept, OtherId(id));
    assert ([first] + kept)[1..] == kept;
    assert WithoutId([first] + kept, id) == kept;
    TakeCons(second, kept, MAX_HISTORY - 1);
    TakeCons(second, w, MAX_HISTORY - 1);
    assert Take(kept, MAX_HISTORY - 1) == kept;
  }

  /** Dropping the only record with an id is popping its index. */
  lemma {:induction false} WithoutOnlyMatch(h: seq<HistoryRecord>, i: nat, id: string)
    requires i < |h| && h[i].id == id
    requires forall j :: 0 <= j < |h| && j != i ==> h[j].id != id
    ensures WithoutId(h, id) == RemoveAt(h, i)
  {
    var rest := h[1..];
    if i == 0 {
      assert forall j :: 0 <= j < |rest| ==> rest[j] == h[j + 1];
      FilterAll(rest, OtherId(id));
    } else {
      assert forall j :: 0 <= j < |rest| ==> rest[j] == h[j + 1];
      WithoutOnlyMatch(rest, i - 1, id);
      assert [h[0]] + RemoveAt(rest, i - 1) == RemoveAt(h, i);
    }
  }

  lemma NoMatchUnchanged(h: seq<HistoryRecord>, id: string)
    requires |MatchingIndices(h, id)| == 0
    ensures WithoutId(h, id) == h
  {
    FilterAll(h, OtherId(id));
  }

  lemma OneMatchPopped(h: seq<HistoryRecord>, id: string)
    requires |MatchingIndices(h, id)| == 1
    ensures WithoutId(h, id) == RemoveAt(h, MatchingIndices(h, id)[0])
  {
    var ix := MatchingIndices(h, id);
    assert forall j :: 0 <= j < |h| && h[j].id == id ==> j == ix[0];
    WithoutOnlyMatch(h, ix[0], id);
  }

  /** With at most one record of the new id, the update as written is the intended one. */
  lemma UpsertAgrees(h: seq<HistoryRecord>, record: HistoryRecord)
    requires |MatchingIndices(h, record.id)| <= 1
    ensures Upsert(h, record) == Some(UpsertIntended(h, record))
  {
    var ix := MatchingIndices(h, record.id);
    if |ix| == 0 {
      NoMatchUnchanged(h, record.id);
    } else {
      OneMatchPopped(h, record.id);
      assert ix[0] < |h| && ix[1..] == [];
      assert PopEach(RemoveAt(h, ix[0]), ix[1..]) == Some(RemoveAt(h, ix[0]));
      assert PopEach(h, ix) == Some(RemoveAt(h, ix[0]));
    }
  }

  /** Unique ids mean at most one matching position. */
  lemma UniqueMatchesOnce(h: seq<HistoryRecord>, id: string)
    requires UniqueIds(h)
    ensures |MatchingIndices(h, id)| <= 1
  {
    var ix := MatchingIndices(h, id);
    assert forall k :: 0 <= k < |ix| ==> ix[k] == ix[0] by {
      forall k | 0 <= k < |ix| ensures ix[k] == ix[0] {
        assert RecordId(h[ix[k]]) == RecordId(h[ix[0]]);
      }
    }
  }

  /**
   * As written, two stored records with the new record's id make the second
   * `pop` run past the end of the shortened list.
   */
  lemma UpsertRaisesOnDuplicates()
    ensures var a := HistoryRecord("2026-W10", "2026年10月第10周", "2026-03-02", 20, []);
      var b := a.(date := "2026-03-05");
      Upsert([a, b], a.(date := "2026-03-08")) == None
  {
    var a := HistoryRecord("2026-W10", "2026年10月第10周", "2026-03-02", 20, []);
    var b := a.(date := "2026-03-05");
    var h := [a, b];
    assert h[..1] == [a] && [a][..0] == [];
    assert MatchingIndices([], a.id) == [];
    assert MatchingIndices([a], a.id) == [0];
    assert MatchingIndices(h, a.id) == [0, 1];
    assert RemoveAt(h, 0) == [b];
    assert [0, 1][1..] == [1];
    assert PopEach([b], [1]) == None;
    assert PopEach(h, [0, 1]) == None;
  }

  /**
   * As written, with two records of the new id followed by another week,
   * the second `pop` removes the other week and one old record of the id
   * survives next to the new one.
   */
  lemma UpsertDropsWrongRecord()
    ensures var a := HistoryRecord("2026-W10", "2026年10月第10周", "2026-03-02", 20, []);
      var b := a.(date := "2026-03-05");
      var c := HistoryRecord("2026-W09", "2026年9月第9周", "2026-02-23", 20, []);
      Upsert([a, b, c], a.(date := "2026-03-08")) == Some([a.(date := "2026-03-08"), b])
  {
    var a := HistoryRecord("2026-W10", "2026年10月第10周", "2026-03-02", 20, []);
    var b := a.(date := "2026-03-05");
    var c := HistoryRecord("2026-W09", "2026年9月第9周", "2026-02-23", 20, []);
    var h := [a, b, c];
    assert h[..2] == [a, b] && [a, b][..1] == [a] && [a][..0] == [];
    assert MatchingIndices([], a.id) == [];
    assert MatchingIndices([a], a.id) == [0];
    assert MatchingIndices([a, b], a.id) == [0, 1];
    assert MatchingIndices(h, a.id) == [0, 1];
    assert RemoveAt(h, 0) == [b, c];
    assert RemoveAt([b, c], 1) == [b];
    assert [0, 1][1..] == [1] && [1][1..] == [];
    assert PopEach([b], []) == Some([b]);
    assert PopEach([b, c], [1]) == Some([b]);
    assert PopEach(h, [0, 1]) == Some([b]);
    var r := a.(date := "2026-03-08");
    assert [r] + [b] == [r, b];
    assert Upsert(h, r) == Some(Take([r, b], MAX_HISTORY));
  }

  /** On the same ledger the intended update keeps the other week and drops both old records of the id. */
  lemma UpsertIntendedKeepsOtherWeek()
    ensures var a := HistoryRecord("2026-W10", "2026年10月第10周", "2026-03-02", 20, []);
      var b := a.(date := "2026-03-05");
      var c := HistoryRecord("2026-W09", "2026年9月第9周", "2026-02-23", 20, []);
      UpsertIntended([a, b, c], a.(date := "2026-03-08")) == [a.(date := "2026-03-08"), c]
  {
    var a := HistoryRecord("2026-W10", "2026年10月第10周", "2026-03-02", 20, []);
    var b := a.(date := "2026-03-05");
    var c := HistoryRecord("2026-W09", "2026年9月第9周", "2026-02-23", 20, []);
    var h := [a, b, c];
    var keep := OtherId(a.id);
    assert h[1..] == [b, c] && [b, c][1..] == [c] && [c][1..] == [];
    assert Filter([c], keep) == [c];
    assert Filter([b, c], keep) == [c];
    assert Filter(h, keep) == [c];
  }

  // ---------------------------------------------------------------------------
  // StorageService

  class StorageService {
    /** The state of `data/projects.json`. */
    var projectsFile: StoredFile<ProjectsDocument>
    /** The state of `data/history.json`. */
    var historyFile: StoredFile<seq<HistoryRecord>>

    /** A service over data files in the given states. */
    constructor(projects: StoredFile<ProjectsDocument>, history: StoredFile<seq<HistoryRecord>>)
      ensures projectsFile == projects && historyFile == history
    {
      projectsFile := projects;
      historyFile := history;
    }

    /** `save_projects`: the whole snapshot is replaced and returned. */
    method SaveProjects(projects: seq<ProjectCreate>, now: string) returns (data: ProjectsDocument)
      modifies this
      ensures data.projects == projects && data.total_projects == |projects| && data.last_updated == now
      ensures projectsFile == Written(data)
      ensures historyFile == old(historyFile)
    {
      data := ProjectsDocument(now, projects, |projects|);
      projectsFile := Written(data);
    }

    /** `load_projects`: the stored snapshot, or the default one when the file is absent or unreadable. */
    method LoadProjects(now: string) returns (data: ProjectsDocument)
      ensures data == LoadedProjects(projectsFile, now)
      ensures !projectsFile.Written? ==> data.projects == [] && data.total_projects == 0
    {
      match projectsFile {
        case Written(d) => data := d;
        case _ => data := DefaultDocument(now);
      }
    }

    /** `get_projects`: the stored projects, item by item, in stored order. */
    method GetProjects(now: string) returns (projects: seq<ProjectCreate>)
      ensures projects == LoadedProjects(projectsFile, now).projects
    {
      var data := LoadProjects(now);
      projects := [];
      for i := 0 to |data.projects|
        invariant projects == data.projects[..i]
      {
        projects := projects + [data.projects[i]];
      }
    }

    /** `save_history`: the whole ledger is replaced. */
    method SaveHistory(records: seq<HistoryRecord>)
      modifies this
      ensures historyFile == Written(records)
      ensures projectsFile == old(projectsFile)
    {
      historyFile := Written(records);
    }

    /** `load_history`: the stored ledger, or none when the file is absent or corrupt. */
    method LoadHistory() returns (records: seq<HistoryRecord>)
      ensures records == LoadedHistory(historyFile)
      ensures !historyFile.Written? ==> records == []
    {
      match historyFile {
        case Written(rs) => records := rs;
        case _ => records := [];
      }
    }

    /** `for i in existing: history.pop(i)` on a local copy: `None` when a pop raises `IndexError`. */
    static method PopAll(history: seq<HistoryRecord>, existing: seq<nat>) returns (r: Option<seq<HistoryRecord>>)
      ensures r == PopEach(history, existing)
    {
      var h := history;
      for k := 0 to |existing|
        invariant PopEach(history, existing) == PopEach(h, existing[k..])
      {
        var i := existing[k];
        assert existing[k..][1..] == existing[k + 1..];
        if i >= |h| {
          return None;
        }
        h := h[..i] + h[i + 1..];
      }
      r := Some(h);
    }

    /**
     * `add_history_record`, as written: pop every matching index in ascending
     * order, insert the record at the head, keep the first 12 and save. With
     * unique ids in the stored ledger this is the intended update.
     */
    method AddHistoryRecord(record: HistoryRecord) returns (outcome: Outcome)
      modifies this
      ensures projectsFile == old(projectsFile)
      ensures Upsert(LoadedHistory(old(historyFile)), record).None? ==>
        outcome == Raised(POP_OUT_OF_RANGE) && historyFile == old(historyFile)
      ensures Upsert(LoadedHistory(old(historyFile)), record).Some? ==>
        outcome == Done && historyFile == Written(Upsert(LoadedHistory(old(historyFile)), record).value)
      ensures UniqueIds(LoadedHistory(old(historyFile))) ==>
        outcome == Done && historyFile == Written(UpsertIntended(LoadedHistory(old(historyFile)), record))
    {
      var history := LoadHistory();
      if UniqueIds(history) {
        UniqueMatchesOnce(history, record.id);
        UpsertAgrees(history, record);
      }
      var popped := PopAll(history, MatchingIndices(history, record.id));
      if popped.None? {
        return Raised(POP_OUT_OF_RANGE);
      }
      var updated := [record] + popped.value;
      if |updated| > MAX_HISTORY {
        updated := updated[..MAX_HISTORY];
      }
      assert updated == Take([record] + popped.value, MAX_HISTORY);
      SaveHistory(updated);
      outcome := Done;
    }
  }
}
