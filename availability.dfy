/** Which requested datasets the node retrieves from: the datasets query of
    `_fetch_dataset_retriever`, a join of the tenant's requested datasets with a
    per-dataset count of queryable documents. */
module Availability {
  import opened Records

  /** The grouped count subquery: queryable documents of `datasetId`, counting
      only documents whose dataset was requested. */
  function AvailableDocumentCount(docs: seq<Document>, datasetId: string, requested: seq<string>): nat
    decreases |docs|
  {
    if docs == [] then 0
    else
      var d := docs[|docs| - 1];
      AvailableDocumentCount(docs[..|docs| - 1], datasetId, requested)
        + if IsQueryable(d) && d.datasetId in requested && d.datasetId == datasetId then 1 else 0
  }

  /** The row filter of the datasets query. */
  predicate IsRetrievable(ds: Dataset, docs: seq<Document>, tenant: string, requested: seq<string>) {
    && ds.tenantId == tenant
    && ds.id in requested
    && (AvailableDocumentCount(docs, ds.id, requested) > 0 || ds.provider == "external")
  }

  /** The datasets table filtered by the query, in table order. */
  function AvailableDatasets(datasets: seq<Dataset>, docs: seq<Document>, tenant: string, requested: seq<string>)
    : (r: seq<Dataset>)
    ensures |r| <= |datasets|
    ensures forall ds :: ds in r <==> ds in datasets && IsRetrievable(ds, docs, tenant, requested)
    decreases |datasets|
  {
    if datasets == [] then []
    else
      var rest := AvailableDatasets(datasets[..|datasets| - 1], docs, tenant, requested);
      var ds := datasets[|datasets| - 1];
      assert datasets == datasets[..|datasets| - 1] + [ds];
      if IsRetrievable(ds, docs, tenant, requested) then rest + [ds] else rest
  }

  /** Filtering commutes with concatenation, so the result keeps table order. */
  lemma {:induction false} AvailableDatasetsConcat(a: seq<Dataset>, b: seq<Dataset>, docs: seq<Document>,
                                                   tenant: string, requested: seq<string>)
    ensures AvailableDatasets(a + b, docs, tenant, requested) ==
            AvailableDatasets(a, docs, tenant, requested) + AvailableDatasets(b, docs, tenant, requested)
    decreases |b|
  {
    if b == [] {
      assert a + b == a;
    } else {
      var ab := a + b;
      assert ab[..|ab| - 1] == a + b[..|b| - 1];
      assert ab[|ab| - 1] == b[|b| - 1];
      AvailableDatasetsConcat(a, b[..|b| - 1], docs, tenant, requested);
    }
  }

  /** The count is positive exactly when some queryable document of a requested
      dataset belongs to `datasetId`. */
  lemma {:induction false} CountPositiveIff(docs: seq<Document>, datasetId: string, requested: seq<string>)
    ensures AvailableDocumentCount(docs, datasetId, requested) > 0 <==>
            exists d :: d in docs && IsQueryable(d) && d.datasetId in requested && d.datasetId == datasetId
    decreases |docs|
  {
    if docs != [] {
      var init := docs[..|docs| - 1];
      CountPositiveIff(init, datasetId, requested);
      assert docs == init + [docs[|docs| - 1]];
      assert forall d :: d in docs <==> d in init || d == docs[|docs| - 1];
    }
  }

  /** A dataset is returned iff it belongs to the caller's tenant, was requested,
      and is external or has a completed, enabled, unarchived document. */
  lemma AvailableIff(datasets: seq<Dataset>, docs: seq<Document>, tenant: string, requested: seq<string>, ds: Dataset)
    ensures ds in AvailableDatasets(datasets, docs, tenant, requested) <==>
            && ds in datasets
            && ds.tenantId == tenant
            && ds.id in requested
            && (ds.provider == "external" ||
                exists d :: d in docs && IsQueryable(d) && d.datasetId == ds.id)
  {
    CountPositiveIff(docs, ds.id, requested);
  }

  /** An internal dataset none of whose documents is queryable is never returned. */
  lemma InternalWithoutDocumentsExcluded(datasets: seq<Dataset>, docs: seq<Document>, tenant: string,
                                         requested: seq<string>, ds: Dataset)
    requires ds.provider != "external"
    requires forall d :: d in docs && d.datasetId == ds.id ==> !IsQueryable(d)
    ensures ds !in AvailableDatasets(datasets, docs, tenant, requested)
  {
    AvailableIff(datasets, docs, tenant, requested, ds);
  }
}
