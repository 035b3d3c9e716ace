/**
 * The factory of quota-aware document adapters: it attaches the size
 * statistics facet to a document that lacks it, optionally saving the
 * document with the repository listeners suppressed, and hands out an
 * adapter only for documents that carry the facet.
 */
module QuotaAwareDocumentFactory {
  import opened Wrappers

  /** The facet that makes a document quota-aware. */
  const DOCUMENTS_SIZE_STATISTICS_FACET: string := "DocumentsSizeStatistics"

  /**
   * An entry of a document's context data. ListenerSuppression stands for the
   * listener-disabling flags that QuotaUtils.disableListeners puts and
   * QuotaUtils.clearContextData removes; Entry is any other entry.
   */
  datatype ContextEntry = ListenerSuppression | Entry(key: string)

  /** The part of a document model the factory reads and writes. */
  datatype DocState = DocState(facets: set<string>, contextData: set<ContextEntry>)

  /** What make does to a document: its resulting state, and the state it stored, if it saved. */
  datatype Attachment = Attachment(doc: DocState, stored: Option<DocState>)

  /** The effect of make(doc, save) on a document in state d. */
  function Attach(d: DocState, save: bool): (a: Attachment)
    // afterwards the document carries the facet, and no other facet changed
    ensures a.doc.facets == d.facets + {DOCUMENTS_SIZE_STATISTICS_FACET}
    // a document that already has the facet is left exactly as it was, unsaved
    ensures DOCUMENTS_SIZE_STATISTICS_FACET in d.facets ==> a == Attachment(d, None)
    // a save happens iff the facet was missing and saving was asked for
    ensures a.stored.Some? <==> DOCUMENTS_SIZE_STATISTICS_FACET !in d.facets && save
    // the save stores the document with its facet and with the listeners suppressed
    ensures a.stored.Some? ==>
              a.stored.value.facets == a.doc.facets &&
              a.stored.value.contextData == d.contextData + {ListenerSuppression}
    // after a save the suppression flags are gone; other context data is untouched
    ensures a.stored.Some? ==> a.doc.contextData == d.contextData - {ListenerSuppression}
    ensures a.stored.None? ==> a.doc.contextData == d.contextData
  {
    if DOCUMENTS_SIZE_STATISTICS_FACET in d.facets then Attachment(d, None)
    else
      var withFacet := d.(facets := d.facets + {DOCUMENTS_SIZE_STATISTICS_FACET});
      if !save then Attachment(withFacet, None)
      else
        var flagged := withFacet.(contextData := withFacet.contextData + {ListenerSuppression});
        Attachment(flagged.(contextData := flagged.contextData - {ListenerSuppression}), Some(flagged))
  }

  /** make is idempotent: a second call changes nothing and saves nothing. */
  lemma AttachIdempotent(d: DocState, save: bool, saveAgain: bool)
    ensures var once := Attach(d, save).doc;
            Attach(once, saveAgain) == Attachment(once, None)
  {
  }

  /** The repository session a document model belongs to, with the states it has saved. */
  class CoreSession {
    /** The document states written by SaveDocument, oldest first. */
    var saved: seq<DocState>

    constructor ()
      ensures saved == []
    {
      saved := [];
    }

    /** Stores doc and returns a fresh document model holding what was stored. */
    method SaveDocument(doc: DocumentModel) returns (r: DocumentModel)
      modifies this
      ensures saved == old(saved) + [doc.State()]
      ensures fresh(r) && r.State() == doc.State() && r.session == this
    {
      saved := saved + [doc.State()];
      r := new DocumentModel(this, doc.facets, doc.contextData);
    }
  }

  class DocumentModel {
    var facets: set<string>
    var contextData: set<ContextEntry>
    const session: CoreSession

    constructor (session: CoreSession, facets: set<string>, contextData: set<ContextEntry>)
      ensures this.session == session && this.facets == facets && this.contextData == contextData
    {
      this.session := session;
      this.facets := facets;
      this.contextData := contextData;
    }

    function State(): DocState
      reads this
    {
      DocState(facets, contextData)
    }

    function HasFacet(facet: string): bool
      reads this
    {
      facet in facets
    }

    method AddFacet(facet: string)
      modifies this`facets
      ensures facets == old(facets) + {facet}
    {
      facets := facets + {facet};
    }
  }

  /** An adapter giving quota access to a document that carries the facet. */
  datatype QuotaAwareDocument = QuotaAwareDocument(doc: DocumentModel)

  /** Puts the listener-disabling flags into the document's context data. */
  method DisableListeners(doc: DocumentModel)
    modifies doc`contextData
    ensures doc.contextData == old(doc.contextData) + {ListenerSuppression}
  {
    doc.contextData := doc.contextData + {ListenerSuppression};
  }

  /** Removes the listener-disabling flags from the document's context data. */
  method ClearContextData(doc: DocumentModel)
    modifies doc`contextData
    ensures doc.contextData == old(doc.contextData) - {ListenerSuppression}
  {
    doc.contextData := doc.contextData - {ListenerSuppression};
  }

  /** The factory's getAdapter: an adapter exactly for documents with the facet. */
  function GetAdapter(doc: DocumentModel): (r: Option<QuotaAwareDocument>)
    reads doc
    ensures r.Some? <==> doc.HasFacet(DOCUMENTS_SIZE_STATISTICS_FACET)
    ensures r.Some? ==> r.value.doc == doc
  {
    if doc.HasFacet(DOCUMENTS_SIZE_STATISTICS_FACET) then Some(QuotaAwareDocument(doc)) else None
  }

  /**
   * make(doc, save): ensures doc carries the facet, saving it when the facet was
   * added and save is set, and returns the adapter of the (saved) document.
   */
  method Make(doc: DocumentModel, save: bool) returns (adapter: Option<QuotaAwareDocument>)
    modifies doc, doc.session
    ensures var a := Attach(old(doc.State()), save);
            && doc.State() == a.doc
            && doc.session.saved == old(doc.session.saved) + (if a.stored.Some? then [a.stored.value] else [])
            && adapter.Some?
            && (a.stored.None? ==> adapter.value.doc == doc)
            && (a.stored.Some? ==> fresh(adapter.value.doc) && adapter.value.doc.State() == a.doc)
            && adapter.value.doc.session == doc.session
  {
    var current := doc;
    if !doc.HasFacet(DOCUMENTS_SIZE_STATISTICS_FACET) {
      doc.AddFacet(DOCUMENTS_SIZE_STATISTICS_FACET);
      if save {
        var origDoc := doc;
        DisableListeners(doc);
        current := doc.session.SaveDocument(doc);
        ClearContextData(current);
        ClearContextData(origDoc);
      }
    }
    adapter := GetAdapter(current);
  }
}
