/**
  The Log4J adapter: every `filter` overload of the Log4J filter interface
  gathers the template and the parameters of the call into one array and asks
  the redaction decision, answering NEUTRAL (let the rest of the chain decide)
  or DENY, and never ACCEPT.
 */
module Log4JAdapter {
  import opened LogFilter

  /** Log4J's filter result. */
  datatype Result = Accept | Neutral | Deny

  /** Log4J's life-cycle states. */
  datatype State = Initializing | Initialized | Starting | Started | Stopping | Stopped

  /** A parameterised Log4J message: its format string and its parameters. */
  datatype Message = Message(format: string, parameters: seq<Arg>)

  /** What the adapter reads of a Log4J event: the message it carries. */
  datatype LogEvent = LogEvent(message: Message)

  /** checkMessageResult: NEUTRAL when the event may be logged, DENY when not. */
  function CheckMessageResult(message: string, parameters: seq<Arg>): (r: Result)
    ensures r != Accept
    ensures r == Neutral <==> Allows(message, parameters)
    ensures r == Deny <==> |parameters| > 1 && Sensitive(message, parameters[1])
  {
    if Allows(message, parameters) then Neutral else Deny
  }

  /** The result on a match and on a mismatch are both NEUTRAL. */
  function GetOnMatch(): Result {
    Neutral
  }

  function GetOnMismatch(): Result {
    Neutral
  }

  function GetState(): State {
    Started
  }

  predicate IsStarted() {
    true
  }

  predicate IsStopped() {
    false
  }

  lemma NeutralOnMatchAndMismatch()
    ensures GetOnMatch() == Neutral && GetOnMismatch() == Neutral
  {
  }

  lemma LifeCycleConstant()
    ensures GetState() == Started && IsStarted() && !IsStopped()
  {
  }

  /** The variable-arity overload: the parameters as given. */
  function FilterParams(message: string, params: seq<Arg>): (r: Result)
    ensures r != Accept
    ensures r == Deny <==> |params| > 1 && Sensitive(message, params[1])
  {
    CheckMessageResult(message, params)
  }

  /** One parameter: a one-element array leaves nothing to inspect. */
  function Filter1(message: string, p0: Arg): (r: Result)
    ensures r == Neutral
  {
    CheckMessageResult(message, [p0])
  }

  // From two parameters on, the array is the parameters in call order and only
  // the second of them can lead to DENY.

  function Filter2(message: string, p0: Arg, p1: Arg): (r: Result)
    ensures r != Accept
    ensures r == Deny <==> Sensitive(message, p1)
  {
    CheckMessageResult(message, [p0, p1])
  }

  function Filter3(message: string, p0: Arg, p1: Arg, p2: Arg): (r: Result)
    ensures r != Accept
    ensures r == Deny <==> Sensitive(message, p1)
  {
    CheckMessageResult(message, [p0, p1, p2])
  }

  function Filter4(message: string, p0: Arg, p1: Arg, p2: Arg, p3: Arg): (r: Result)
    ensures r != Accept
    ensures r == Deny <==> Sensitive(message, p1)
  {
    CheckMessageResult(message, [p0, p1, p2, p3])
  }

  function Filter5(message: string, p0: Arg, p1: Arg, p2: Arg, p3: Arg, p4: Arg): (r: Result)
    ensures r != Accept
    ensures r == Deny <==> Sensitive(message, p1)
  {
    CheckMessageResult(message, [p0, p1, p2, p3, p4])
  }

  function Filter6(message: string, p0: Arg, p1: Arg, p2: Arg, p3: Arg, p4: Arg, p5: Arg): (r: Result)
    ensures r != Accept
    ensures r == Deny <==> Sensitive(message, p1)
  {
    CheckMessageResult(message, [p0, p1, p2, p3, p4, p5])
  }

  function Filter7(message: string, p0: Arg, p1: Arg, p2: Arg, p3: Arg, p4: Arg, p5: Arg, p6: Arg): (r: Result)
    ensures r != Accept
    ensures r == Deny <==> Sensitive(message, p1)
  {
    CheckMessageResult(message, [p0, p1, p2, p3, p4, p5, p6])
  }

  function Filter8(message: string, p0: Arg, p1: Arg, p2: Arg, p3: Arg, p4: Arg, p5: Arg, p6: Arg, p7: Arg): (r: Result)
    ensures r != Accept
    ensures r == Deny <==> Sensitive(message, p1)
  {
    CheckMessageResult(message, [p0, p1, p2, p3, p4, p5, p6, p7])
  }

  function Filter9(message: string, p0: Arg, p1: Arg, p2: Arg, p3: Arg, p4: Arg, p5: Arg, p6: Arg, p7: Arg, p8: Arg): (r: Result)
    ensures r != Accept
    ensures r == Deny <==> Sensitive(message, p1)
  {
    CheckMessageResult(message, [p0, p1, p2, p3, p4, p5, p6, p7, p8])
  }

  function Filter10(message: string, p0: Arg, p1: Arg, p2: Arg, p3: Arg, p4: Arg, p5: Arg, p6: Arg, p7: Arg, p8: Arg, p9: Arg): (r: Result)
    ensures r != Accept
    ensures r == Deny <==> Sensitive(message, p1)
  {
    CheckMessageResult(message, [p0, p1, p2, p3, p4, p5, p6, p7, p8, p9])
  }

  /** A raw object with a throwable: its text is the template and the array is
      empty, so the event always passes. */
  function FilterObject(text: string): (r: Result)
    ensures r == Neutral
  {
    CheckMessageResult(text, [])
  }

  /** A `Message` with a throwable: the message's own format and parameters. */
  function FilterMessage(msg: Message): (r: Result)
    ensures r != Accept
    ensures r == Deny <==> |msg.parameters| > 1 && Sensitive(msg.format, msg.parameters[1])
  {
    CheckMessageResult(msg.format, msg.parameters)
  }

  /** A whole event: the format and parameters of the message it carries. */
  function FilterEvent(event: LogEvent): (r: Result)
    ensures r == FilterMessage(event.message)
  {
    var message := event.message;
    CheckMessageResult(message.format, message.parameters)
  }
}
