/**
 * The abstract quota statistics updater: it decides whether an event concerns
 * it, sends each recognised document event to exactly one of eleven handlers,
 * reports a quota violation to a hook before re-raising it, and walks the
 * ancestors of a document up to (not including) the repository root.
 *
 * The handlers, the guard and the hook are abstract in the updater; here the
 * guard is a predicate parameter and a handler is an oracle saying which
 * exception, if any, it raises for the arguments it was given.
 */
module QuotaStats {
  import opened Wrappers
  import opened Repository

  // Names of the document events the updater reacts to.
  const DOCUMENT_CREATED: string := "documentCreated"
  const ABOUT_TO_REMOVE: string := "aboutToRemove"
  const ABOUT_TO_REMOVE_VERSION: string := "aboutToRemoveVersion"
  const DOCUMENT_CREATED_BY_COPY: string := "documentCreatedByCopy"
  const DOCUMENT_MOVED: string := "documentMoved"
  const DOCUMENT_UPDATED: string := "documentModified"
  const BEFORE_DOC_UPDATE: string := "beforeDocumentModification"
  const TRANSITION_EVENT: string := "lifecycle_transition_event"
  const DOCUMENT_CHECKEDIN: string := "documentCheckedIn"
  const DOCUMENT_CHECKEDOUT: string := "documentCheckedOut"
  const DOCUMENT_RESTORED: string := "documentRestored"
  const BEFORE_DOC_RESTORE: string := "beforeRestoringDocument"

  /** Key of the event-context property that holds the source parent of a move. */
  const PARENT_PATH: string := "parentPath"

  /** The eleven abstract handlers, one constructor each. */
  datatype Op =
    | Created
    | AboutToBeRemoved
    | Copied
    | Moved
    | Updated
    | BeforeUpdate
    | TrashOp
    | CheckedIn
    | CheckedOut
    | Restored
    | BeforeRestore

  /** The event names that select op: the reverse view of the dispatch. */
  function NamesOf(op: Op): set<string>
  {
    match op
    case Created => {DOCUMENT_CREATED}
    case AboutToBeRemoved => {ABOUT_TO_REMOVE, ABOUT_TO_REMOVE_VERSION}
    case Copied => {DOCUMENT_CREATED_BY_COPY}
    case Moved => {DOCUMENT_MOVED}
    case Updated => {DOCUMENT_UPDATED}
    case BeforeUpdate => {BEFORE_DOC_UPDATE}
    case TrashOp => {TRANSITION_EVENT}
    case CheckedIn => {DOCUMENT_CHECKEDIN}
    case CheckedOut => {DOCUMENT_CHECKEDOUT}
    case Restored => {DOCUMENT_RESTORED}
    case BeforeRestore => {BEFORE_DOC_RESTORE}
  }

  /** The if/else chain of updateStatistics: which handler an event name selects, if any. */
  function Classify(name: string): (r: Option<Op>)
    ensures forall op :: r == Some(op) <==> name in NamesOf(op)
  {
    if name == DOCUMENT_CREATED then Some(Created)
    else if name == ABOUT_TO_REMOVE || name == ABOUT_TO_REMOVE_VERSION then Some(AboutToBeRemoved)
    else if name == DOCUMENT_CREATED_BY_COPY then Some(Copied)
    else if name == DOCUMENT_MOVED then Some(Moved)
    else if name == DOCUMENT_UPDATED then Some(Updated)
    else if name == BEFORE_DOC_UPDATE then Some(BeforeUpdate)
    else if name == TRANSITION_EVENT then Some(TrashOp)
    else if name == DOCUMENT_CHECKEDIN then Some(CheckedIn)
    else if name == DOCUMENT_CHECKEDOUT then Some(CheckedOut)
    else if name == DOCUMENT_RESTORED then Some(Restored)
    else if name == BEFORE_DOC_RESTORE then Some(BeforeRestore)
    else None
  }

  datatype Event = Event(name: string)

  /** A document event context: its source document and its document-reference properties. */
  datatype EventContext = EventContext(sourceDocument: Option<Document>, properties: map<string, DocId>)

  /** The document the context's PARENT_PATH property resolves to. */
  function SourceParent(session: Session, docCtx: EventContext): (r: Option<Document>)
    // a document exactly when the property is set and names a document of the session
    ensures r.Some? <==> PARENT_PATH in docCtx.properties && docCtx.properties[PARENT_PATH] in session
    ensures r.Some? ==> r.value == session[docCtx.properties[PARENT_PATH]]
  {
    GetDocument(session, if PARENT_PATH in docCtx.properties then Some(docCtx.properties[PARENT_PATH]) else None)
  }

  /** Identity of an exception object. */
  type ExceptionId = nat

  datatype Exception =
    | QuotaExceededException(id: ExceptionId)
    | OtherException(id: ExceptionId)

  /** How a call ends: normally, or by raising an exception. */
  datatype Completion = Normal | Threw(exception: Exception)

  /** The arguments of a handler call; sourceParent is only passed to the move handler. */
  datatype HandlerCall = HandlerCall(op: Op, doc: Option<Document>, sourceParent: Option<Document>)

  /** A call the updater makes into its abstract members. */
  datatype Invocation =
    | Handled(call: HandlerCall)
    | QuotaExceededHandled(exception: ExceptionId, event: Event)

  /** What one updateStatistics call does: the calls it makes, in order, and how it ends. */
  datatype Step = Step(invocations: seq<Invocation>, completion: Completion)

  function HandlerCount(t: seq<Invocation>): nat
  {
    if t == [] then 0 else (if t[0].Handled? then 1 else 0) + HandlerCount(t[1..])
  }

  function HookCount(t: seq<Invocation>): nat
  {
    if t == [] then 0 else (if t[0].QuotaExceededHandled? then 1 else 0) + HookCount(t[1..])
  }

  /** The handler raised a QuotaExceededException. */
  predicate RaisesQuotaExceeded(raised: Option<Exception>)
  {
    raised.Some? && raised.value.QuotaExceededException?
  }

  /**
   * The behaviour of updateStatistics for a guard needToProcess, handlers that
   * raise outcome(call) when called with call, and a quota-exceeded hook that
   * raises hookOutcome(e, event) when called with e and event.
   */
  function Dispatch(session: Session, docCtx: EventContext, event: Event,
                    needToProcess: (Event, Option<Document>) -> bool,
                    outcome: HandlerCall -> Option<Exception>,
                    hookOutcome: (ExceptionId, Event) -> Option<Exception>): (r: Step)
    // an event the guard declines has no effect and raises nothing
    ensures !needToProcess(event, docCtx.sourceDocument) ==> r == Step([], Normal)
    // an unrecognised event name is ignored, without error
    ensures Classify(event.name).None? ==> r == Step([], Normal)
    // exactly one handler for an accepted, recognised event; none otherwise
    ensures HandlerCount(r.invocations) ==
            if needToProcess(event, docCtx.sourceDocument) && Classify(event.name).Some? then 1 else 0
    // the handler comes first: the one the name selects, on the source document,
    // with the resolved PARENT_PATH as source parent for a move
    ensures r.invocations != [] ==>
              && r.invocations[0].Handled?
              && Classify(event.name) == Some(r.invocations[0].call.op)
              && r.invocations[0].call.doc == docCtx.sourceDocument
              && r.invocations[0].call.sourceParent ==
                 (if r.invocations[0].call.op == Moved then SourceParent(session, docCtx) else None)
    // the call raises exactly when the handler does
    ensures r.completion.Threw? <==> r.invocations != [] && outcome(r.invocations[0].call).Some?
    // the hook runs once, right after the handler, exactly when the handler exceeded a quota
    ensures HookCount(r.invocations) ==
            if r.invocations != [] && RaisesQuotaExceeded(outcome(r.invocations[0].call)) then 1 else 0
    // a quota violation is re-raised unchanged after the hook, unless the hook raises in its place
    ensures r.invocations != [] && RaisesQuotaExceeded(outcome(r.invocations[0].call)) ==>
              var e := outcome(r.invocations[0].call).value;
              && r.invocations == [r.invocations[0], QuotaExceededHandled(e.id, event)]
              && r.completion == Threw(if hookOutcome(e.id, event).Some? then hookOutcome(e.id, event).value else e)
    // any other exception of the handler is re-raised unchanged, without the hook
    ensures !(r.invocations != [] && RaisesQuotaExceeded(outcome(r.invocations[0].call))) ==>
              && |r.invocations| <= 1
              && (r.completion.Threw? ==> outcome(r.invocations[0].call) == Some(r.completion.exception))
  {
    var doc := docCtx.sourceDocument;
    if !needToProcess(event, doc) then Step([], Normal)
    else
      match Classify(event.name)
      case None => Step([], Normal)
      case Some(op) =>
        var call := HandlerCall(op, doc, if op == Moved then SourceParent(session, docCtx) else None);
        match outcome(call)
        case None => Step([Handled(call)], Normal)
        case Some(QuotaExceededException(id)) =>
          var t := [Handled(call), QuotaExceededHandled(id, event)];
          assert t[1..] == [QuotaExceededHandled(id, event)] && t[1..][1..] == [];
          assert HandlerCount(t[1..]) == 0 && HookCount(t[1..]) == 1;
          Step(t, Threw(if hookOutcome(id, event).Some? then hookOutcome(id, event).value
                        else QuotaExceededException(id)))
        case Some(e) => Step([Handled(call)], Threw(e))
  }

  /** The chain of documents getAncestors returns for doc: parent first, root excluded. */
  predicate IsAncestorChain(session: Session, doc: Option<Document>, r: seq<Document>)
  {
    if doc.None? || doc.value.parentRef.None? then r == []
    else
      var first := GetDocument(session, doc.value.parentRef);
      // element 0 is the parent, element i + 1 the parent of element i
      && (r != [] ==> first == Some(r[0]))
      && (forall i | 0 < i < |r| :: Parent(session, r[i - 1]) == Some(r[i]))
      // no element is the root, and the walk stops at the first root or missing document
      && (forall i | 0 <= i < |r| :: !r[i].isRoot)
      && StopsAt(After(session, doc, r))
  }

  /** The document the walk reads after the documents r, starting from doc. */
  function After(session: Session, doc: Option<Document>, r: seq<Document>): Option<Document>
    requires doc.Some?
  {
    if r == [] then GetDocument(session, doc.value.parentRef) else Parent(session, r[|r| - 1])
  }

  /** The walk ends on a missing document or on the root. */
  predicate StopsAt(d: Option<Document>)
  {
    d.None? || d.value.isRoot
  }

  /** The chain is determined: at most one sequence is the ancestor chain of doc. */
  lemma {:induction false} AncestorChainUnique(session: Session, doc: Option<Document>, r1: seq<Document>, r2: seq<Document>)
    requires IsAncestorChain(session, doc, r1) && IsAncestorChain(session, doc, r2)
    ensures r1 == r2
  {
    if doc.Some? && doc.value.parentRef.Some? {
      CommonPrefix(session, doc, r1, r2, if |r1| < |r2| then |r1| else |r2|);
      // the shorter chain is a prefix of the longer one, which continues where the shorter stops
      if |r1| <= |r2| {
        assert r1 == r2[..|r1|];
      } else {
        assert r2 == r1[..|r2|];
      }
      forall k | 0 <= k < |r2|
        ensures After(session, doc, r2[..k]) == Some(r2[k]) && !r2[k].isRoot
      {
        ChainContinues(session, doc, r2, k);
      }
      forall k | 0 <= k < |r1|
        ensures After(session, doc, r1[..k]) == Some(r1[k]) && !r1[k].isRoot
      {
        ChainContinues(session, doc, r1, k);
      }
    }
  }

  /** Every element of a chain is the non-root document the walk reads after its predecessors. */
  lemma ChainContinues(session: Session, doc: Option<Document>, r: seq<Document>, k: nat)
    requires IsAncestorChain(session, doc, r)
    requires doc.Some? && doc.value.parentRef.Some?
    requires k < |r|
    ensures After(session, doc, r[..k]) == Some(r[k]) && !r[k].isRoot
  {
  }

  /** Two ancestor chains of the same document agree on their first n elements. */
  lemma {:induction false} CommonPrefix(session: Session, doc: Option<Document>, r1: seq<Document>, r2: seq<Document>, n: nat)
    requires IsAncestorChain(session, doc, r1) && IsAncestorChain(session, doc, r2)
    requires doc.Some? && doc.value.parentRef.Some?
    requires n <= |r1| && n <= |r2|
    ensures forall i | 0 <= i < n :: r1[i] == r2[i]
  {
    if n == 1 {
      assert Some(r1[0]) == GetDocument(session, doc.value.parentRef) == Some(r2[0]);
    } else if n > 1 {
      CommonPrefix(session, doc, r1, r2, n - 1);
      assert Some(r1[n - 1]) == Parent(session, r1[n - 2]) == Parent(session, r2[n - 2]) == Some(r2[n - 1]);
    }
  }

  /** An updater with its descriptive metadata and the calls it has made to its abstract members. */
  class QuotaStatsUpdater {
    var name: Option<string>
    var labelText: Option<string>  // the label field (`label` is a Dafny keyword)
    var descriptionLabel: Option<string>
    /** Every call made to a handler or to the quota-exceeded hook, oldest first. */
    ghost var trace: seq<Invocation>

    constructor ()
      ensures name == None && labelText == None && descriptionLabel == None && trace == []
    {
      name, labelText, descriptionLabel := None, None, None;
      trace := [];
    }

    function GetName(): Option<string>
      reads this
    {
      name
    }

    function GetLabel(): Option<string>
      reads this
    {
      labelText
    }

    function GetDescriptionLabel(): Option<string>
      reads this
    {
      descriptionLabel
    }

    method SetName(name: Option<string>)
      modifies this`name
      ensures GetName() == name
      ensures GetLabel() == old(GetLabel()) && GetDescriptionLabel() == old(GetDescriptionLabel())
      ensures trace == old(trace)
    {
      this.name := name;
    }

    method SetLabel(labelText: Option<string>)
      modifies this`labelText
      ensures GetLabel() == labelText
      ensures GetName() == old(GetName()) && GetDescriptionLabel() == old(GetDescriptionLabel())
      ensures trace == old(trace)
    {
      this.labelText := labelText;
    }

    method SetDescriptionLabel(descriptionLabel: Option<string>)
      modifies this`descriptionLabel
      ensures GetDescriptionLabel() == descriptionLabel
      ensures GetName() == old(GetName()) && GetLabel() == old(GetLabel())
      ensures trace == old(trace)
    {
      this.descriptionLabel := descriptionLabel;
    }

    /** Calls the abstract handler call.op; it raises outcome(call), if anything. */
    method Process(call: HandlerCall, outcome: HandlerCall -> Option<Exception>) returns (raised: Option<Exception>)
      modifies this`trace
      ensures trace == old(trace) + [Handled(call)]
      ensures raised == outcome(call)
    {
      trace := trace + [Handled(call)];
      raised := outcome(call);
    }

    /** Calls the abstract quota-exceeded hook; it raises hookOutcome(e, event), if anything. */
    method HandleQuotaExceeded(e: ExceptionId, event: Event, hookOutcome: (ExceptionId, Event) -> Option<Exception>)
      returns (raised: Option<Exception>)
      modifies this`trace
      ensures trace == old(trace) + [QuotaExceededHandled(e, event)]
      ensures raised == hookOutcome(e, event)
    {
      trace := trace + [QuotaExceededHandled(e, event)];
      raised := hookOutcome(e, event);
    }

    method UpdateStatistics(session: Session, docCtx: EventContext, event: Event,
                            needToProcess: (Event, Option<Document>) -> bool,
                            outcome: HandlerCall -> Option<Exception>,
                            hookOutcome: (ExceptionId, Event) -> Option<Exception>)
      returns (completion: Completion)
      modifies this`trace
      ensures trace == old(trace) + Dispatch(session, docCtx, event, needToProcess, outcome, hookOutcome).invocations
      ensures completion == Dispatch(session, docCtx, event, needToProcess, outcome, hookOutcome).completion
    {
      var doc := docCtx.sourceDocument;
      if !needToProcess(event, doc) {
        return Normal;
      }
      var op := Classify(event.name);
      if op.None? {
        return Normal;
      }
      var sourceParent := None;
      if op.value == Moved {
        sourceParent := SourceParent(session, docCtx);
      }
      var raised := Process(HandlerCall(op.value, doc, sourceParent), outcome);
      match raised
      case None =>
        completion := Normal;
      case Some(QuotaExceededException(id)) =>
        var hookRaised := HandleQuotaExceeded(id, event, hookOutcome);
        if hookRaised.Some? {
          completion := Threw(hookRaised.value);
        } else {
          completion := Threw(QuotaExceededException(id));
        }
      case Some(e) =>
        completion := Threw(e);
    }

    /** The ancestors of doc, from its parent up to the last document before the root. */
    method GetAncestors(session: Session, doc: Option<Document>) returns (ancestors: seq<Document>)
      requires Acyclic(session)
      ensures IsAncestorChain(session, doc, ancestors)
    {
      ancestors := [];
      if doc.Some? && doc.value.parentRef.Some? {
        ghost var rank :| RankedBy(session, rank);
        ghost var key := doc.value.parentRef.value;
        var d := GetDocument(session, doc.value.parentRef);
        while d.Some? && !d.value.isRoot
          invariant d.Some? ==> key in session && d.value == session[key]
          invariant d == if ancestors == [] then GetDocument(session, doc.value.parentRef)
                         else Parent(session, ancestors[|ancestors| - 1])
          invariant ancestors != [] ==> GetDocument(session, doc.value.parentRef) == Some(ancestors[0])
          invariant forall i | 0 < i < |ancestors| :: Parent(session, ancestors[i - 1]) == Some(ancestors[i])
          invariant forall i | 0 <= i < |ancestors| :: !ancestors[i].isRoot
          decreases if d.Some? && key in rank then rank[key] + 2 else if d.Some? then 1 else 0
        {
          ancestors := ancestors + [d.value];
          if d.value.parentRef.Some? && d.value.parentRef.value in session {
            assert LinksTo(session, key, d.value.parentRef.value);
            key := d.value.parentRef.value;
          }
          d := Parent(session, d.value);
        }
      }
    }
  }
}
