/** The end of `_fetch_dataset_retriever`: the engine's results are split by
    provider, each becomes a uniform source record (internal ones only when
    their dataset and a live document still resolve), the records are sorted
    by score, highest first and stably, and numbered 1..N. */
module Fusion {
  import opened Common
  import opened MetadataValues
  import opened Records
  import ScoreSort

  /** The metadata dictionary of a result from an external knowledge base. */
  datatype ExternalMetadata = ExternalMetadata(
    datasetId: Option<string>,
    datasetName: Option<string>,
    documentId: Option<string>,
    title: Option<string>,
    score: Option<real>)

  /** One result of the retrieval engine. */
  datatype RetrievedItem = RetrievedItem(provider: string, metadata: ExternalMetadata, pageContent: string)

  /** The stored chunk an internal result points to; `signContent` is what
      `get_sign_content()` returns. */
  datatype DocumentSegment = DocumentSegment(
    id: string,
    datasetId: string,
    documentId: string,
    hitCount: int,
    wordCount: int,
    position: int,
    indexNodeHash: Option<string>,
    answer: Option<string>,
    signContent: string)

  /** What the formatter makes of an internal result. */
  datatype RetrievalRecord = RetrievalRecord(segment: DocumentSegment, score: Option<real>)

  /** The `doc_metadata` entry: the external item's whole metadata, or the
      stored document's. */
  datatype SourceDocMetadata = FromExternal(external: ExternalMetadata) | FromDocument(stored: map<string, MetaValue>)

  /** One entry of the node's result list. `segment` carries the `segment_*`
      entries, present for internal results only. */
  datatype Source = Source(
    datasetId: Option<string>,
    datasetName: Option<string>,
    documentId: Option<string>,
    documentName: Option<string>,
    dataSourceType: string,
    segment: Option<DocumentSegment>,
    score: Option<real>,
    docMetadata: SourceDocMetadata,
    title: Option<string>,
    content: string,
    position: Option<nat>)

  const ExternalProvider: string := "external"
  const InternalProvider: string := "dify"

  /** The items of one provider, in engine order. */
  function ProviderItems(items: seq<RetrievedItem>, provider: string): (r: seq<RetrievedItem>)
    ensures forall x :: x in r <==> x in items && x.provider == provider
    decreases |items|
  {
    if items == [] then []
    else
      var x := items[|items| - 1];
      assert items == items[..|items| - 1] + [x];
      ProviderItems(items[..|items| - 1], provider) + if x.provider == provider then [x] else []
  }
  /** Selecting one provider commutes with concatenation, so the items keep
      the engine's order. */
  lemma {:induction false} ProviderItemsConcat(a: seq<RetrievedItem>, b: seq<RetrievedItem>, provider: string)
    ensures ProviderItems(a + b, provider) == ProviderItems(a, provider) + ProviderItems(b, provider)
    decreases |b|
  {
    if b == [] {
      assert a + b == a;
    } else {
      var ab := a + b;
      assert ab[..|ab| - 1] == a + b[..|b| - 1];
      assert ab[|ab| - 1] == b[|b| - 1];
      var x := b[|b| - 1];
      var tail := if x.provider == provider then [x] else [];
      ProviderItemsConcat(a, b[..|b| - 1], provider);
      assert ProviderItems(ab, provider) == ProviderItems(a + b[..|b| - 1], provider) + tail;
      assert ProviderItems(b, provider) == ProviderItems(b[..|b| - 1], provider) + tail;
    }
  }


  /** `document_id or title`: an unset or empty id falls back to the title. */
  function ExternalDocumentId(m: ExternalMetadata): Option<string> {
    if m.documentId.Some? && m.documentId.value != "" then m.documentId else m.title
  }

  function ExternalSource(item: RetrievedItem): Source {
    Source(
      item.metadata.datasetId,
      item.metadata.datasetName,
      ExternalDocumentId(item.metadata),
      item.metadata.title,
      "external",
      None,
      item.metadata.score,
      FromExternal(item.metadata),
      item.metadata.title,
      item.pageContent,
      None)
  }

  function ExternalSources(items: seq<RetrievedItem>): (r: seq<Source>)
    ensures |r| == |items|
    ensures forall i :: 0 <= i < |r| ==> r[i] == ExternalSource(items[i])
    decreases |items|
  {
    if items == [] then []
    else ExternalSources(items[..|items| - 1]) + [ExternalSource(items[|items| - 1])]
  }

  /** `.first()` of the datasets with this id. */
  function FirstDataset(datasets: seq<Dataset>, id: string): (r: Option<Dataset>)
    ensures r.Some? <==> exists d :: d in datasets && d.id == id
    ensures r.Some? ==> r.value in datasets && r.value.id == id
    decreases |datasets|
  {
    if datasets == [] then None
    else if datasets[0].id == id then Some(datasets[0])
    else FirstDataset(datasets[1..], id)
  }

  predicate IsLive(d: Document) {
    d.enabled && !d.archived
  }

  /** `.first()` of the enabled, non-archived documents with this id. */
  function FirstLiveDocument(documents: seq<Document>, id: string): (r: Option<Document>)
    ensures r.Some? <==> exists d :: d in documents && d.id == id && IsLive(d)
    ensures r.Some? ==> r.value in documents && r.value.id == id && IsLive(r.value)
    decreases |documents|
  {
    if documents == [] then None
    else if documents[0].id == id && IsLive(documents[0]) then Some(documents[0])
    else FirstLiveDocument(documents[1..], id)
  }

  /** A question-answer chunk shows both parts; any other chunk its content. */
  function Content(segment: DocumentSegment): string {
    if segment.answer.Some? && segment.answer.value != "" then
      "question:" + segment.signContent + " \nanswer:" + segment.answer.value
    else segment.signContent
  }

  /** `record.score or 0.0`. */
  function ScoreOrZero(score: Option<real>): real {
    if score.Some? then score.value else 0.0
  }

  /** The source for a formatted internal result, or None when its dataset or
      a live document with its document id does not resolve. */
  function InternalSource(record: RetrievalRecord, datasets: seq<Dataset>, documents: seq<Document>): (r: Option<Source>)
    ensures r.Some? <==>
            (exists d :: d in datasets && d.id == record.segment.datasetId) &&
            (exists d :: d in documents && d.id == record.segment.documentId && IsLive(d))
  {
    var dataset := FirstDataset(datasets, record.segment.datasetId);
    var document := FirstLiveDocument(documents, record.segment.documentId);
    if dataset.Some? && document.Some? then
      Some(Source(
        Some(dataset.value.id),
        Some(dataset.value.name),
        Some(document.value.id),
        Some(document.value.name),
        document.value.dataSourceType,
        Some(record.segment),
        Some(ScoreOrZero(record.score)),
        FromDocument(document.value.docMetadata),
        Some(document.value.name),
        Content(record.segment),
        None))
    else None
  }

  function InternalSources(records: seq<RetrievalRecord>, datasets: seq<Dataset>, documents: seq<Document>)
    : seq<Source>
    decreases |records|
  {
    if records == [] then []
    else
      var s := InternalSource(records[|records| - 1], datasets, documents);
      InternalSources(records[..|records| - 1], datasets, documents) + if s.Some? then [s.value] else []
  }

  /** The unsorted list: external sources, then the internal ones. The
      formatter is only consulted when there are internal results. */
  function Collected(
    items: seq<RetrievedItem>,
    formatter: seq<RetrievedItem> -> seq<RetrievalRecord>,
    datasets: seq<Dataset>,
    documents: seq<Document>): seq<Source>
  {
    var internal := ProviderItems(items, InternalProvider);
    ExternalSources(ProviderItems(items, ExternalProvider))
      + if internal == [] then [] else InternalSources(formatter(internal), datasets, documents)
  }

  /** The sort key: the score, with a missing one counted as 0.0. */
  function ScoreKey(s: Source): real {
    if s.score.Some? then s.score.value else 0.0
  }

  function Numbered(s: seq<Source>): seq<Source> {
    seq(|s|, i requires 0 <= i < |s| => s[i].(position := Some(i + 1)))
  }

  /** The list with the positions taken off again. */
  function Unnumbered(s: seq<Source>): seq<Source> {
    seq(|s|, i requires 0 <= i < |s| => s[i].(position := None))
  }

  /** The node's result list. */
  function Ranked(
    items: seq<RetrievedItem>,
    formatter: seq<RetrievedItem> -> seq<RetrievalRecord>,
    datasets: seq<Dataset>,
    documents: seq<Document>): seq<Source>
  {
    Numbered(ScoreSort.Sort(Collected(items, formatter, datasets, documents), ScoreKey))
  }

  lemma {:induction false} InternalSourcesProps(records: seq<RetrievalRecord>, datasets: seq<Dataset>, documents: seq<Document>)
    ensures forall s :: s in InternalSources(records, datasets, documents) ==>
              && s.position.None?
              && s.segment.Some?
              && s.datasetId == Some(s.segment.value.datasetId)
              && (exists d :: d in datasets && d.id == s.segment.value.datasetId)
              && (exists d :: d in documents && d.id == s.segment.value.documentId && IsLive(d))
    decreases |records|
  {
    if records != [] {
      InternalSourcesProps(records[..|records| - 1], datasets, documents);
    }
  }

  /** Every source in the list is unnumbered; internal ones carry their segment
      and resolve to a dataset and a live document. External ones carry none. */
  lemma CollectedProps(
    items: seq<RetrievedItem>, formatter: seq<RetrievedItem> -> seq<RetrievalRecord>,
    datasets: seq<Dataset>, documents: seq<Document>)
    ensures forall s :: s in Collected(items, formatter, datasets, documents) ==>
              && s.position.None?
              && (s.segment.Some? ==>
                    && s.datasetId == Some(s.segment.value.datasetId)
                    && (exists d :: d in datasets && d.id == s.segment.value.datasetId)
                    && (exists d :: d in documents && d.id == s.segment.value.documentId && IsLive(d)))
  {
    var internal := ProviderItems(items, InternalProvider);
    if internal != [] {
      InternalSourcesProps(formatter(internal), datasets, documents);
    }
  }

  /** An external entry's document id is its id, or its title when the id is
      unset or empty; its data source type is "external". */
  lemma ExternalDocumentIdFallback(item: RetrievedItem)
    ensures ExternalSource(item).dataSourceType == "external"
    ensures item.metadata.documentId.None? || item.metadata.documentId == Some("") ==>
            ExternalSource(item).documentId == item.metadata.title
    ensures item.metadata.documentId.Some? && item.metadata.documentId != Some("") ==>
            ExternalSource(item).documentId == item.metadata.documentId
  {
  }

  /** An internal entry shows question and answer exactly when the chunk has a
      non-empty answer, and its score is never missing. */
  lemma InternalContentAndScore(record: RetrievalRecord, datasets: seq<Dataset>, documents: seq<Document>)
    requires InternalSource(record, datasets, documents).Some?
    ensures var s := InternalSource(record, datasets, documents).value;
            && s.score.Some?
            && (record.score.None? ==> s.score == Some(0.0))
            && (record.segment.answer.Some? && record.segment.answer.value != "" ==>
                  s.content == "question:" + record.segment.signContent + " \nanswer:" + record.segment.answer.value)
            && (record.segment.answer.None? || record.segment.answer == Some("") ==>
                  s.content == record.segment.signContent)
  {
  }

  lemma UnnumberNumbered(s: seq<Source>)
    requires forall x :: x in s ==> x.position.None?
    ensures Unnumbered(Numbered(s)) == s
  {
    assert forall i :: 0 <= i < |s| ==> s[i] in s;
  }

  /** Sorting by score and numbering gives non-increasing scores and positions 1..N. */
  lemma NumberedSortedProps(c: seq<Source>)
    ensures var r := Numbered(ScoreSort.Sort(c, ScoreKey));
            && |r| == |c|
            && (forall i, j :: 0 <= i < j < |r| ==> ScoreKey(r[i]) >= ScoreKey(r[j]))
            && (forall i :: 0 <= i < |r| ==> r[i].position == Some(i + 1))
  {
    var sorted := ScoreSort.Sort(c, ScoreKey);
    ScoreSort.SortSorted(c, ScoreKey);
    ScoreSort.SortPermutation(c, ScoreKey);
    var r := Numbered(sorted);
    forall i | 0 <= i < |r|
      ensures ScoreKey(r[i]) == ScoreKey(sorted[i])
    {
    }
  }

  /** The list is in non-increasing score order, a missing score counting as
      0.0, and the positions are 1..N in that order. */
  lemma RankedOrderAndPositions(
    items: seq<RetrievedItem>, formatter: seq<RetrievedItem> -> seq<RetrievalRecord>,
    datasets: seq<Dataset>, documents: seq<Document>)
    ensures var r := Ranked(items, formatter, datasets, documents);
            && |r| == |Collected(items, formatter, datasets, documents)|
            && (forall i, j :: 0 <= i < j < |r| ==> ScoreKey(r[i]) >= ScoreKey(r[j]))
            && (forall i :: 0 <= i < |r| ==> r[i].position == Some(i + 1))
  {
    NumberedSortedProps(Collected(items, formatter, datasets, documents));
  }

  /** Sorting and numbering only permutes the entries and sets their positions. */
  lemma NumberedSortedMembers(c: seq<Source>)
    requires forall x :: x in c ==> x.position.None?
    ensures var r := Numbered(ScoreSort.Sort(c, ScoreKey));
            && multiset(Unnumbered(r)) == multiset(c)
            && (forall s :: s in r ==> exists x :: x in c && x.segment == s.segment)
  {
    var sorted := ScoreSort.Sort(c, ScoreKey);
    ScoreSort.SortPermutation(c, ScoreKey);
    forall x | x in sorted
      ensures x in c
    {
      assert x in multiset(sorted);
    }
    UnnumberNumbered(sorted);
    var r := Numbered(sorted);
    forall s | s in r
      ensures exists x :: x in c && x.segment == s.segment
    {
      var i :| 0 <= i < |r| && r[i] == s;
      assert sorted[i] in sorted;
    }
  }

  /** Without the positions the list is a permutation of the collected sources,
      so every internal entry in it resolves. */
  lemma RankedPermutation(
    items: seq<RetrievedItem>, formatter: seq<RetrievedItem> -> seq<RetrievalRecord>,
    datasets: seq<Dataset>, documents: seq<Document>)
    ensures var r := Ranked(items, formatter, datasets, documents);
            && multiset(Unnumbered(r)) == multiset(Collected(items, formatter, datasets, documents))
            && (forall s :: s in r && s.segment.Some? ==>
                  && (exists d :: d in datasets && d.id == s.segment.value.datasetId)
                  && (exists d :: d in documents && d.id == s.segment.value.documentId && IsLive(d)))
  {
    var c := Collected(items, formatter, datasets, documents);
    CollectedProps(items, formatter, datasets, documents);
    NumberedSortedMembers(c);
    var r := Ranked(items, formatter, datasets, documents);
    forall s | s in r && s.segment.Some?
      ensures exists d :: d in datasets && d.id == s.segment.value.datasetId
      ensures exists d :: d in documents && d.id == s.segment.value.documentId && IsLive(d)
    {
      var x :| x in c && x.segment == s.segment;
    }
  }

  /** Stability: among entries of equal score the external ones come first, and
      each group keeps the engine's (respectively the formatter's) order. */
  lemma RankedStable(
    items: seq<RetrievedItem>, formatter: seq<RetrievedItem> -> seq<RetrievalRecord>,
    datasets: seq<Dataset>, documents: seq<Document>, v: real)
    ensures var internal := ProviderItems(items, InternalProvider);
            var internals := if internal == [] then [] else InternalSources(formatter(internal), datasets, documents);
            ScoreSort.WithKey(Unnumbered(Ranked(items, formatter, datasets, documents)), ScoreKey, v)
              == ScoreSort.WithKey(ExternalSources(ProviderItems(items, ExternalProvider)), ScoreKey, v)
                 + ScoreSort.WithKey(internals, ScoreKey, v)
  {
    var c := Collected(items, formatter, datasets, documents);
    var sorted := ScoreSort.Sort(c, ScoreKey);
    ScoreSort.SortPermutation(c, ScoreKey);
    CollectedProps(items, formatter, datasets, documents);
    assert forall x :: x in sorted ==> x in multiset(c);
    UnnumberNumbered(sorted);
    ScoreSort.SortStable(c, ScoreKey, v);
    var internal := ProviderItems(items, InternalProvider);
    var internals := if internal == [] then [] else InternalSources(formatter(internal), datasets, documents);
    ScoreSort.WithKeyConcat(ExternalSources(ProviderItems(items, ExternalProvider)), internals, ScoreKey, v);
  }

  /** The two list comprehensions that split the engine's results by provider. */
  method SplitByProvider(items: seq<RetrievedItem>) returns (difyItems: seq<RetrievedItem>, externalItems: seq<RetrievedItem>)
    ensures difyItems == ProviderItems(items, InternalProvider)
    ensures externalItems == ProviderItems(items, ExternalProvider)
  {
    difyItems, externalItems := [], [];
    for i := 0 to |items|
      invariant difyItems == ProviderItems(items[..i], InternalProvider)
      invariant externalItems == ProviderItems(items[..i], ExternalProvider)
    {
      assert items[..i + 1][..i] == items[..i];
      if items[i].provider == InternalProvider {
        difyItems := difyItems + [items[i]];
      }
      if items[i].provider == ExternalProvider {
        externalItems := externalItems + [items[i]];
      }
    }
    assert items[..|items|] == items;
  }

  /** The two loops that append a source per external item and per resolving
      internal record. */
  method BuildSources(
    difyItems: seq<RetrievedItem>,
    externalItems: seq<RetrievedItem>,
    formatter: seq<RetrievedItem> -> seq<RetrievalRecord>,
    datasets: seq<Dataset>,
    documents: seq<Document>) returns (list: seq<Source>)
    ensures list == ExternalSources(externalItems)
                    + if difyItems == [] then [] else InternalSources(formatter(difyItems), datasets, documents)
  {
    list := [];
    for i := 0 to |externalItems|
      invariant list == ExternalSources(externalItems[..i])
    {
      assert externalItems[..i + 1][..i] == externalItems[..i];
      list := list + [ExternalSource(externalItems[i])];
    }
    assert externalItems[..|externalItems|] == externalItems;
    if difyItems != [] {
      var records := formatter(difyItems);
      var externals := list;
      for i := 0 to |records|
        invariant list == externals + InternalSources(records[..i], datasets, documents)
      {
        assert records[..i + 1][..i] == records[..i];
        var source := InternalSource(records[i], datasets, documents);
        if source.Some? {
          list := list + [source.value];
        }
      }
      assert records[..|records|] == records;
    }
  }

  /** `enumerate(..., start=1)` writing each entry's position in place. */
  method AssignPositions(a: array<Source>)
    modifies a
    ensures a[..] == Numbered(old(a[..]))
  {
    for i := 0 to a.Length
      invariant forall k :: 0 <= k < i ==> a[k] == old(a[k]).(position := Some(k + 1))
      invariant forall k :: i <= k < a.Length ==> a[k] == old(a[k])
    {
      a[i] := a[i].(position := Some(i + 1));
    }
  }

  /** The fusion part of `_fetch_dataset_retriever`: split by provider, build
      the sources, sort, then number them. */
  method FuseAndRank(
    items: seq<RetrievedItem>,
    formatter: seq<RetrievedItem> -> seq<RetrievalRecord>,
    datasets: seq<Dataset>,
    documents: seq<Document>) returns (result: seq<Source>)
    ensures result == Ranked(items, formatter, datasets, documents)
  {
    var difyItems, externalItems := SplitByProvider(items);
    var list := BuildSources(difyItems, externalItems, formatter, datasets, documents);
    if list == [] {
      return [];
    }
    var sorted := ScoreSort.Sort(list, ScoreKey);
    var a := new Source[|sorted|](i requires 0 <= i < |sorted| => sorted[i]);
    assert a[..] == sorted;
    AssignPositions(a);
    result := a[..];
  }
}
