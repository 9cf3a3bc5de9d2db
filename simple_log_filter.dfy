/**
  The java.util.logging adapter: a logger whose filter slot holds at most one
  filter, and the redacting filter that remembers what the slot held when it
  was created, then chains that filter with the redaction decision.
 */
module JulAdapter {
  import opened LogFilter

  datatype Option<T> = None | Some(value: T)

  /** What the adapter sees of a `LogRecord`: its message template and its
      parameter array. */
  datatype Record = Record(message: string, parameters: seq<Arg>)

  /** A filter that can sit in a logger's slot: one this model knows nothing
      about, seen only as its decision on each record, or a redacting filter. */
  datatype Filter = Foreign(accepts: Record -> bool) | Redaction(redactor: SimpleLogFilter)

  /** How deep a chain of redacting filters the slot value starts. */
  ghost function Depth(slot: Option<Filter>): nat {
    if slot.Some? && slot.value.Redaction? then slot.value.redactor.depth + 1 else 0
  }

  /** A slot value whose redacting filter, if any, was built by the constructor. */
  ghost predicate Installable(slot: Option<Filter>) {
    slot.Some? && slot.value.Redaction? ==> slot.value.redactor.Valid()
  }

  /** The decision a slot value takes on a record; an empty slot accepts
      everything. */
  predicate SlotAllows(slot: Option<Filter>, record: Record)
    requires Installable(slot)
    decreases Depth(slot), 0
  {
    match slot
    case None => true
    case Some(Foreign(accepts)) => accepts(record)
    case Some(Redaction(redactor)) => redactor.IsLoggable(record)
  }

  /** The first filter below every redacting filter of a chain. */
  ghost function Root(slot: Option<Filter>): (root: Option<Filter>)
    requires Installable(slot)
    ensures root.None? || root.value.Foreign?
    decreases Depth(slot)
  {
    match slot
    case Some(Redaction(redactor)) => Root(redactor.prior)
    case _ => slot
  }

  class Logger {
    var filter: Option<Filter>

    constructor (filter: Option<Filter>)
      ensures this.filter == filter
    {
      this.filter := filter;
    }

    method SetFilter(filter: Option<Filter>)
      modifies this`filter
      ensures this.filter == filter
    {
      this.filter := filter;
    }
  }

  class SimpleLogFilter {
    /** The filter the logger held when this one was created; fixed from then on. */
    const prior: Option<Filter>
    const logger: Logger
    /** The number of redacting filters below this one. */
    ghost const depth: nat

    ghost predicate Valid()
      decreases depth
    {
      Depth(prior) <= depth && (prior.Some? && prior.value.Redaction? ==> prior.value.redactor.Valid())
    }

    /** Captures the logger's current filter. */
    constructor (logger: Logger)
      requires Installable(logger.filter)
      ensures Valid()
      ensures prior == logger.filter && this.logger == logger
    {
      prior := logger.filter;
      this.logger := logger;
      depth := Depth(logger.filter);
    }

    /** isLoggable: a record passes when the captured filter (if any) passes it
        and the redaction decision keeps it. */
    predicate IsLoggable(record: Record): (loggable: bool)
      requires Valid()
      decreases depth, 1
      ensures loggable ==> Allows(record.message, record.parameters)
      ensures !SlotAllows(prior, record) ==> !loggable
      ensures SlotAllows(prior, record) ==> loggable == Allows(record.message, record.parameters)
    {
      SlotAllows(prior, record) && Allows(record.message, record.parameters)
    }

    /** inject: make this filter the logger's filter; the logger's slot then
        passes exactly what the captured filter passes and the redaction keeps. */
    method Inject()
      requires Valid()
      modifies logger`filter
      ensures logger.filter == Some(Redaction(this))
      ensures Installable(logger.filter)
      ensures forall r :: SlotAllows(logger.filter, r) <==> SlotAllows(prior, r) && Allows(r.message, r.parameters)
    {
      logger.SetFilter(Some(Redaction(this)));
    }
  }

  /** However many redacting filters are stacked, the chain passes a record
      exactly when the filter at its root does and the redaction keeps it:
      stacking the redaction twice decides like installing it once. */
  lemma {:induction false} ChainDecision(slot: Option<Filter>, record: Record)
    requires Installable(slot) && slot.Some? && slot.value.Redaction?
    ensures SlotAllows(slot, record) <==> SlotAllows(Root(slot), record) && Allows(record.message, record.parameters)
    decreases Depth(slot)
  {
    var redactor := slot.value.redactor;
    if redactor.prior.Some? && redactor.prior.value.Redaction? {
      ChainDecision(redactor.prior, record);
    }
  }

  /** Creating the filter on a logger and injecting it, once or twice, leaves
      the logger with this filter, which still remembers the logger's
      original filter and passes what that filter passes and the redaction
      keeps. */
  method InstallTwice(logger: Logger) returns (installed: SimpleLogFilter)
    requires Installable(logger.filter)
    modifies logger`filter
    ensures installed.Valid() && installed.prior == old(logger.filter) && installed.logger == logger
    ensures logger.filter == Some(Redaction(installed))
    ensures forall r :: SlotAllows(logger.filter, r) <==> SlotAllows(old(logger.filter), r) && Allows(r.message, r.parameters)
  {
    installed := new SimpleLogFilter(logger);
    installed.Inject();
    ghost var once := logger.filter;
    installed.Inject();
    assert logger.filter == once;
  }
}
