/**
 * The simulated ERP lookup: a constant table of two pipe records and a total
 * lookup that falls back to a fixed "not found" record.
 */
module PipeDb {
  /** A value of the table, or the single-field fallback `{"note": ...}`. */
  datatype Details =
    | Record(grade: string, heat: string, lengthM: real)
    | Note(note: string)

  /** What a lookup of an unknown id yields. */
  const NotFound: Details := Note("Not found in demo DB")

  /** `FAKE_DB`. It is a constant, so no lookup can change it. */
  const FakeDb: map<string, Details> := map[
    "PIPE12345" := Record("X52", "H9001", 12.0),
    "PIPE67890" := Record("X60", "H9002", 10.0)
  ]

  /** `fetch_details`: the stored record for a known id, the fallback otherwise. */
  function FetchDetails(pipeId: string): (d: Details)
    ensures pipeId == "PIPE12345" ==> d == Record("X52", "H9001", 12.0)
    ensures pipeId == "PIPE67890" ==> d == Record("X60", "H9002", 10.0)
    ensures pipeId != "PIPE12345" && pipeId != "PIPE67890" ==> d == Note("Not found in demo DB")
  {
    if pipeId in FakeDb then FakeDb[pipeId] else NotFound
  }

  /** The table holds exactly the two demo pipes. */
  lemma FakeDbKeys()
    ensures FakeDb.Keys == {"PIPE12345", "PIPE67890"}
    ensures |FakeDb| == 2
  {
    assert "PIPE12345" != "PIPE67890";
  }

  /**
   * The lookup is total and tells the two cases apart: a full record comes
   * back exactly for the stored ids, and it is the stored one.
   */
  lemma FetchFindsStoredRecords(pipeId: string)
    ensures FetchDetails(pipeId).Record? <==> pipeId in FakeDb
    ensures pipeId in FakeDb ==> FetchDetails(pipeId) == FakeDb[pipeId]
    ensures pipeId !in FakeDb ==> FetchDetails(pipeId) == NotFound
  {
  }
}
