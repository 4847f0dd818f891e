/**
 * What one validator does with one resource. A validator is handed a
 * `report_violation` callback and either returns after calling it some number
 * of times, or raises; the model returns the reported messages in order, or
 * the exception.
 */
module Outcomes {
  import opened PyValue
  import opened Messages

  datatype Outcome = Reported(messages: seq<Message>) | Raised(error: PyError)

  /** The validator returned without reporting anything. */
  const Clean: Outcome := Reported([])

  /** The validator reported `msg` once and returned. */
  function Report(msg: Message): Outcome { Reported([msg]) }

  /** Either nothing, exactly `msg`, or an exception. */
  predicate ReportsAtMost(o: Outcome, msg: Message)
  {
    o.Reported? ==> o.messages == [] || o.messages == [msg]
  }

  /** At most one violation is reported. */
  predicate AtMostOne(o: Outcome)
  {
    o.Reported? ==> |o.messages| <= 1
  }
}
