/** Vocabulary shared by every module: optional values, order identities, order states. */
module Common {

  datatype Option<+T> = None | Some(value: T)

  /** An admission or ledger row is bound to a business order number and to the experiment
      run that issued it.  Records from before the upgrade carry two empty strings. */
  datatype Identity = Identity(order: string, run: string)

  const ANONYMOUS := Identity("", "")

  /** A store call succeeds, fails without effect, or takes effect and loses its reply. */
  datatype Fault = NoFault | LostBefore | LostAfter

  /** The one status enumeration of Redis admissions and ledger rows. */
  datatype Status = StockAcquired | PendingPayment | Paid | Cancelled

  predicate Terminal(s: Status) {
    s == Paid || s == Cancelled
  }

  /** The legal edges of the order state machine. */
  predicate CanTransition(from: Status, to: Status) {
    match from
    case StockAcquired => to == PendingPayment || to == Cancelled
    case PendingPayment => to == Paid || to == Cancelled
    case Paid => false
    case Cancelled => false
  }

  /** Zero or more legal edges lead from `from` to `to`. */
  predicate Reaches(from: Status, to: Status) {
    from == to || from == StockAcquired || (from == PendingPayment && Terminal(to))
  }
}
