/** The canonical records the service exchanges. Their definitions and their
    `Default` implementations are not part of this model: each record is an
    opaque type, and each default value an opaque constant of that type about
    which nothing is assumed beyond its being one fixed value. */
module Entities {

  type Cluster(==, 0)

  type Bucket(==, 0)

  /** The form sent to create a bucket. */
  type BucketForm(==)

  type Document(==, 0)

  /** Query text, target fields, bucket scoping and paging of a search. */
  type SearchParameters(==)

  /** `Cluster::default()`. */
  const DefaultCluster: Cluster

  /** `Bucket::default()`. */
  const DefaultBucket: Bucket

  /** `Document::default()`. */
  const DefaultDocument: Document
}
