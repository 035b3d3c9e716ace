# Nuxeo quota: event dispatch, ancestor walk and quota-facet attachment

This project models two pieces of the control logic of Nuxeo's quota add-on.

- The abstract quota statistics updater (`AbstractQuotaStatsUpdater`) receives document events.
  It first asks its guard whether the event concerns it. It then sends each recognised event name
  to exactly one of eleven abstract handlers. A `QuotaExceededException` raised by a handler goes
  to a notification hook and is then re-raised unchanged, unless the hook itself raises. The updater also walks a document's
  ancestors from its parent up to, but not including, the repository root. It holds a name, a
  label and a description label with plain setters and getters.
- The quota-aware document factory (`QuotaAwareDocumentFactory`) attaches the
  `DocumentsSizeStatistics` facet to a document that lacks it. When asked, it saves the document
  with the listener-disabling flags set, then clears those flags on both the saved and the
  original document model. It hands out a quota adapter only for documents that carry the facet.

Files:

- `wrappers.dfy`: `Option`, which stands for Java's nullable references.
- `repository.dfy`: a session as a map from document reference to document (parent reference,
  root flag), reference lookup, and the acyclicity condition under which the walk ends.
- `quota_stats.dfy`: event names, `Op`, `Classify`, the `Dispatch` specification of
  `updateStatistics`, the ancestor-chain specification with its uniqueness proof, and the class
  `QuotaStatsUpdater`. Its ghost `trace` records every call made to a handler or to the hook.
- `quota_aware_document_factory.dfy`: the `Attach` specification of `make`, the `CoreSession`
  and `DocumentModel` classes, `Make`, and `GetAdapter`.

The guard `needToProcessEventOnDocument`, the eleven `process*` handlers and `handleQuotaExceeded`
are abstract in the source. Here the guard is a predicate parameter. Each handler is an oracle
`outcome` that says which exception, if any, the handler raises for the arguments it receives.
The hook is an oracle
`hookOutcome` that says which exception, if any, it raises for the exception and event it
receives. Exceptions are opaque identities, so "re-raised unchanged" means
"the same identity".

`GetAncestors` follows the code on an unreachable parent: a null document ends the walk, and
the chain gathered so far is returned without any error.

## Model

| member | source | states |
|---|---|---|
| `QuotaStats.Classify` | nuxeo-quota-core/src/main/java/org/nuxeo/ecm/quota/AbstractQuotaStatsUpdater.java:110-134 | an event name selects handler `op` iff it is one of `NamesOf(op)`: each recognised name selects exactly one handler, both removal names select `AboutToBeRemoved`, and any other name selects none |
| `QuotaStats.Dispatch` | nuxeo-quota-core/src/main/java/org/nuxeo/ecm/quota/AbstractQuotaStatsUpdater.java:99-139 | a declined event makes no call and raises nothing; an unknown name is ignored without error; an accepted, recognised event calls exactly one handler, which is first, is the one `Classify` selects, gets the source document, and for a move gets the document `PARENT_PATH` resolves to; the call raises iff the handler does, with the handler's exception; a `QuotaExceededException` reaches the hook exactly once, afterwards, with that exception's identity and the event, and other exceptions never reach it; after the hook the handler's exception is re-raised, or the hook's own exception if it raises one |
| `QuotaStats.QuotaStatsUpdater.UpdateStatistics` | nuxeo-quota-core/src/main/java/org/nuxeo/ecm/quota/AbstractQuotaStatsUpdater.java:99-139 | the calls appended to the trace and the completion are those `Dispatch` describes; name and labels are unchanged |
| `QuotaStats.QuotaStatsUpdater.Process` | nuxeo-quota-core/src/main/java/org/nuxeo/ecm/quota/AbstractQuotaStatsUpdater.java:157-182 | a handler call is recorded once in the trace and raises what the handler raises for its arguments |
| `QuotaStats.QuotaStatsUpdater.HandleQuotaExceeded` | nuxeo-quota-core/src/main/java/org/nuxeo/ecm/quota/AbstractQuotaStatsUpdater.java:153 | the hook call is recorded once in the trace with its exception and event, and raises what the hook raises for those arguments |
| `QuotaStats.SourceParent` | nuxeo-quota-core/src/main/java/org/nuxeo/ecm/quota/AbstractQuotaStatsUpdater.java:117-118 | the source parent of a move is a document exactly when the context's `PARENT_PATH` property is set and names a document of the session, and then it is that document |
| `QuotaStats.QuotaStatsUpdater.GetAncestors` | nuxeo-quota-core/src/main/java/org/nuxeo/ecm/quota/AbstractQuotaStatsUpdater.java:141-151 | on an acyclic session the result is the ancestor chain: empty for a null document or one without a parent reference; otherwise element 0 is the parent, element i+1 the parent of element i, no element is the root, and the walk stops at the first root or unresolvable reference |
| `QuotaStats.AncestorChainUnique` | nuxeo-quota-core/src/main/java/org/nuxeo/ecm/quota/AbstractQuotaStatsUpdater.java:141-151 | the ancestor-chain conditions determine the list: two chains of the same document are equal |
| `QuotaStats.QuotaStatsUpdater.constructor` | nuxeo-quota-core/src/main/java/org/nuxeo/ecm/quota/AbstractQuotaStatsUpdater.java:60-64 | a new updater has null name, label and description label, and has made no calls |
| `QuotaStats.QuotaStatsUpdater.SetName` | nuxeo-quota-core/src/main/java/org/nuxeo/ecm/quota/AbstractQuotaStatsUpdater.java:69-76 | `GetName` then returns the value just set; label, description label and trace are unchanged |
| `QuotaStats.QuotaStatsUpdater.SetLabel` | nuxeo-quota-core/src/main/java/org/nuxeo/ecm/quota/AbstractQuotaStatsUpdater.java:79-86 | `GetLabel` then returns the value just set; name, description label and trace are unchanged |
| `QuotaStats.QuotaStatsUpdater.SetDescriptionLabel` | nuxeo-quota-core/src/main/java/org/nuxeo/ecm/quota/AbstractQuotaStatsUpdater.java:89-96 | `GetDescriptionLabel` then returns the value just set; name, label and trace are unchanged |
| `QuotaAwareDocumentFactory.Attach` | nuxeo-quota-core/src/main/java/org/nuxeo/ecm/quota/size/QuotaAwareDocumentFactory.java:35-48 | afterwards the document has the facet and no other facet changed; a document that already had it is untouched and unsaved; a save happens iff the facet was missing and `save` is set; the save stores the document with the facet and the listener flags set; after a save the flags are gone and all other context data is as before |
| `QuotaAwareDocumentFactory.AttachIdempotent` | nuxeo-quota-core/src/main/java/org/nuxeo/ecm/quota/size/QuotaAwareDocumentFactory.java:36-48 | a second `make` on the result of a first changes nothing and saves nothing, whatever either `save` flag is |
| `QuotaAwareDocumentFactory.Make` | nuxeo-quota-core/src/main/java/org/nuxeo/ecm/quota/size/QuotaAwareDocumentFactory.java:35-50 | the caller's document ends in the state `Attach` gives; the session records exactly the stored state when `Attach` saves and nothing otherwise; the adapter is non-null and wraps the caller's document, or after a save a fresh saved document in the same state; either way the adapter's document belongs to the caller's session |
| `QuotaAwareDocumentFactory.GetAdapter` | nuxeo-quota-core/src/main/java/org/nuxeo/ecm/quota/size/QuotaAwareDocumentFactory.java:53-58 | an adapter is returned iff the document has the facet, and it wraps that document; otherwise null |
| `QuotaAwareDocumentFactory.CoreSession.SaveDocument` | nuxeo-quota-core/src/main/java/org/nuxeo/ecm/quota/size/QuotaAwareDocumentFactory.java:42 | a save records the document's current state and returns a fresh document model holding it |
| `QuotaAwareDocumentFactory.DocumentModel.AddFacet` | nuxeo-quota-core/src/main/java/org/nuxeo/ecm/quota/size/QuotaAwareDocumentFactory.java:37 | the facet is added and no other facet changes |
| `QuotaAwareDocumentFactory.DisableListeners` | nuxeo-quota-core/src/main/java/org/nuxeo/ecm/quota/size/QuotaAwareDocumentFactory.java:40-41 | the listener-disabling flags are added to the document's context data |
| `QuotaAwareDocumentFactory.ClearContextData` | nuxeo-quota-core/src/main/java/org/nuxeo/ecm/quota/size/QuotaAwareDocumentFactory.java:43-46 | the listener-disabling flags are removed and other context data is kept |

## Left out

- The bodies of the eleven `process*` handlers, of `needToProcessEventOnDocument` and of `handleQuotaExceeded` are abstract in the source. The size-propagation and limit logic they stand for is not part of this model.
- Exceptions raised by the guard or by `session.getDocument` in the move branch are not modelled. Exceptions raised by the handlers and by the quota-exceeded hook are.
- The session and the event context are passed to the handlers unchanged. `HandlerCall` records only the handler, the document and the source parent.
- `Repository.GetDocument` and `Repository.Parent` stand for `session.getDocument` at AbstractQuotaStatsUpdater.java:118, :144 and :147. A null or unresolvable reference yields null here, which the code's null checks then handle. The real store raises an exception in that case, and that exception path is not modelled.
- `QuotaStats.SourceParent`: a move event whose context has no `PARENT_PATH` property, or whose property names no document of the session, gets a null source parent. The real `session.getDocument(null)` would raise instead.
- A `PARENT_PATH` property that is not a document reference would make the Java cast fail. Here context properties hold only document references.
- `QuotaStats.QuotaStatsUpdater.GetAncestors` requires an acyclic session: no non-root document lies on a cycle of parent links, as in a repository, which is a tree. This also excludes cycles the walk would never reach. On a reachable cycle the Java loop never ends.
- Documents in the ancestor walk are values, not shared objects, so aliasing between document models is not captured.
- The event-name strings and the facet name are the values of Nuxeo's `DocumentEventTypes`, `LifeCycleConstants`, `CoreEventConstants` and `QuotaAwareDocument` constants. Those classes are not part of this model. The proofs rely only on the names being distinct.
- `QuotaUtils.disableListeners` and `clearContextData` are foreign. Their flags are modelled as the single context entry `ListenerSuppression`.
- `QuotaAwareDocumentFactory.CoreSession.SaveDocument`: what a real save returns is foreign. It is modelled as a fresh document model with the same facets and context data.
- `QuotaAwareDocumentFactory.GetAdapter`: the `Class` parameter and the `adapter.cast` it feeds are dropped. The factory is modelled for the quota adapter class only.
- `QuotaAwareDocumentFactory.Make`: the adapter-service lookup behind `doc.getAdapter(QuotaAware.class)` is replaced by a direct call of `GetAdapter`. The `adapter.cast` class check is not modelled. A document model always belongs to a session here, so the NullPointerException that `make(doc, true)` raises at QuotaAwareDocumentFactory.java:42 for a document with no core session is not modelled.
- The getters are plain field reads. They appear in the setters' contracts and have no rows of their own.
- Logging, the event bus and concurrency between events are not modelled. Each call is one sequential step.
