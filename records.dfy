/** Read-only projections of the persistent records the node queries. */
module Records {
  import opened MetadataValues

  /** A knowledge base ("dataset"). `provider` is "external" for a federated one. */
  datatype Dataset = Dataset(id: string, tenantId: string, provider: string, name: string)

  /** A document of a dataset, with its free-form metadata bag. */
  datatype Document = Document(
    id: string,
    datasetId: string,
    indexingStatus: string,
    enabled: bool,
    archived: bool,
    name: string,
    dataSourceType: string,
    docMetadata: map<string, MetaValue>)

  /** A metadata field declared on a dataset. */
  datatype DatasetMetadataField = DatasetMetadataField(datasetId: string, name: string)

  /** A document takes part in retrieval: indexing completed, enabled, not archived. */
  predicate IsQueryable(d: Document) {
    d.indexingStatus == "completed" && d.enabled && !d.archived
  }
}
