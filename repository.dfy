/**
 * The part of the document repository the quota updater reads: documents by
 * reference, their parent reference and whether they are the repository root.
 */
module Repository {
  import opened Wrappers

  /** Opaque identity of a stored document (a DocumentRef). */
  type DocId = nat

  /** What the ancestor walk sees of a document model. */
  datatype Document = Document(id: DocId, parentRef: Option<DocId>, isRoot: bool)

  /** A session: the documents it can resolve, by reference. */
  type Session = map<DocId, Document>

  /** session.getDocument(ref): null for a null or unresolvable reference. */
  function GetDocument(session: Session, ref: Option<DocId>): Option<Document>
  {
    if ref.Some? && ref.value in session then Some(session[ref.value]) else None
  }

  /** The document the parent reference of doc resolves to. */
  function Parent(session: Session, doc: Document): Option<Document>
  {
    GetDocument(session, doc.parentRef)
  }

  /** The walk steps from stored document k to stored document p. */
  predicate LinksTo(session: Session, k: DocId, p: DocId)
  {
    k in session && !session[k].isRoot && session[k].parentRef == Some(p) && p in session
  }

  /** rank strictly decreases along every step the walk can take. */
  ghost predicate RankedBy(session: Session, rank: map<DocId, nat>)
  {
    forall k, p | LinksTo(session, k, p) :: k in rank && p in rank && rank[p] < rank[k]
  }

  /** No chain of parent links between non-root documents runs in a circle. */
  ghost predicate Acyclic(session: Session)
  {
    exists rank: map<DocId, nat> :: RankedBy(session, rank)
  }
}
