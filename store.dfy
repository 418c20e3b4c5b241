/**
 * The rows app/main.py writes through the ORM (Dataset, Analysis, Chart in
 * app/models.py) and the session it writes them with.
 *
 * Row k of a table has id k + 1, as an integer primary key assigned on insert;
 * a rolled-back insert gives its id back.
 */
module Store {
  import opened Wrappers
  import Base64
  import Analysis

  datatype DatasetRow = DatasetRow(id: nat, userId: nat, filename: string, originalName: string, blob: seq<Base64.Byte>)
  datatype AnalysisRow = AnalysisRow(id: nat, datasetId: nat, summary: Analysis.Summary)
  datatype ChartRow = ChartRow(id: nat, analysisId: nat, title: string, image: seq<Base64.Byte>)

  datatype Db = Db(datasets: seq<DatasetRow>, analyses: seq<AnalysisRow>, charts: seq<ChartRow>) {
    /** Ids follow insertion order and every foreign key names an existing row. */
    predicate Valid() {
      && (forall k :: 0 <= k < |datasets| ==> datasets[k].id == k + 1)
      && (forall k :: 0 <= k < |analyses| ==>
            analyses[k].id == k + 1 && 1 <= analyses[k].datasetId <= |datasets|)
      && (forall k :: 0 <= k < |charts| ==>
            charts[k].id == k + 1 && 1 <= charts[k].analysisId <= |analyses|)
    }
  }

  /** `Dataset(user_id=..., filename=name, original_name=name, blob=data)` inserted. */
  function WithDataset(db: Db, userId: nat, filename: string, blob: seq<Base64.Byte>): (r: Db)
    requires db.Valid()
    ensures r.Valid() && r.analyses == db.analyses && r.charts == db.charts
    ensures |r.datasets| == |db.datasets| + 1 && r.datasets[..|db.datasets|] == db.datasets
    ensures r.datasets[|db.datasets|] == DatasetRow(|r.datasets|, userId, filename, filename, blob)
  {
    db.(datasets := db.datasets + [DatasetRow(|db.datasets| + 1, userId, filename, filename, blob)])
  }

  /** `Analysis(dataset_id=..., summary_json=...)` inserted. */
  function WithAnalysis(db: Db, datasetId: nat, summary: Analysis.Summary): (r: Db)
    requires db.Valid() && 1 <= datasetId <= |db.datasets|
    ensures r.Valid() && r.datasets == db.datasets && r.charts == db.charts
    ensures |r.analyses| == |db.analyses| + 1 && r.analyses[..|db.analyses|] == db.analyses
    ensures r.analyses[|db.analyses|] == AnalysisRow(|r.analyses|, datasetId, summary)
  {
    db.(analyses := db.analyses + [AnalysisRow(|db.analyses| + 1, datasetId, summary)])
  }

  /** The Chart rows for `charts`, numbered from `start + 1`, all attached to analysis `aid`. */
  function ChartRows(start: nat, aid: nat, charts: seq<Analysis.Chart>): (r: seq<ChartRow>)
    ensures |r| == |charts|
    ensures forall k :: 0 <= k < |charts| ==>
              r[k] == ChartRow(start + k + 1, aid, charts[k].title, charts[k].image)
  {
    seq(|charts|, k requires 0 <= k < |charts| =>
      ChartRow(start + k + 1, aid, charts[k].title, charts[k].image))
  }

  /** One Chart row per chart, in order, appended after the existing ones. */
  function WithCharts(db: Db, aid: nat, charts: seq<Analysis.Chart>): (r: Db)
    requires db.Valid() && 1 <= aid <= |db.analyses|
    ensures r.Valid() && r.datasets == db.datasets && r.analyses == db.analyses
    ensures r.charts == db.charts + ChartRows(|db.charts|, aid, charts)
  {
    db.(charts := db.charts + ChartRows(|db.charts|, aid, charts))
  }

  /** Adding charts one at a time gives the same rows as adding them together. */
  lemma WithChartsStep(db: Db, aid: nat, charts: seq<Analysis.Chart>, c: Analysis.Chart)
    requires db.Valid() && 1 <= aid <= |db.analyses|
    ensures WithCharts(WithCharts(db, aid, charts), aid, [c]) == WithCharts(db, aid, charts + [c])
  {
    var n := |db.charts|;
    assert ChartRows(n, aid, charts) + ChartRows(n + |charts|, aid, [c]) == ChartRows(n, aid, charts + [c]);
  }

  /** The ORM session: what is committed, and the transaction's view of it. */
  class Session {
    var committed: Db
    var pending: Db

    ghost predicate Valid()
      reads this
    {
      committed.Valid() && pending.Valid()
    }

    constructor (db: Db)
      requires db.Valid()
      ensures Valid() && committed == db && pending == db
    {
      committed := db;
      pending := db;
    }

    /** `db.session.add(Dataset(...))`; the id it is given is the one the commit at app/main.py:53 assigns. */
    method AddDataset(userId: nat, filename: string, blob: seq<Base64.Byte>) returns (id: nat)
      requires Valid()
      modifies this
      ensures Valid() && committed == old(committed)
      ensures pending == WithDataset(old(pending), userId, filename, blob)
      ensures id == |pending.datasets| && id >= 1
    {
      pending := WithDataset(pending, userId, filename, blob);
      id := |pending.datasets|;
    }

    /** `db.session.add(Analysis(...))` and `db.session.flush()`. */
    method AddAnalysis(datasetId: nat, summary: Analysis.Summary) returns (id: nat)
      requires Valid() && 1 <= datasetId <= |pending.datasets|
      modifies this
      ensures Valid() && committed == old(committed)
      ensures pending == WithAnalysis(old(pending), datasetId, summary)
      ensures id == |pending.analyses| && id >= 1
    {
      pending := WithAnalysis(pending, datasetId, summary);
      id := |pending.analyses|;
    }

    /** `db.session.add(Chart(...))`. */
    method AddChart(analysisId: nat, chart: Analysis.Chart)
      requires Valid() && 1 <= analysisId <= |pending.analyses|
      modifies this
      ensures Valid() && committed == old(committed)
      ensures pending == WithCharts(old(pending), analysisId, [chart])
    {
      pending := WithCharts(pending, analysisId, [chart]);
    }

    /**
     * `db.session.commit()`; a database error is a parameter. A failed commit
     * changes nothing and leaves the transaction to be rolled back.
     */
    method Commit(fault: Option<string>) returns (error: Option<string>)
      requires Valid()
      modifies this
      ensures Valid() && pending == old(pending) && error == fault
      ensures committed == if fault.None? then old(pending) else old(committed)
    {
      error := fault;
      if fault.None? {
        committed := pending;
      }
    }

    /** `db.session.rollback()`: everything since the last commit is discarded. */
    method Rollback()
      requires Valid()
      modifies this
      ensures Valid() && committed == old(committed) && pending == committed
    {
      pending := committed;
    }
  }
}
