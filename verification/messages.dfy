/**
 * The messages that travel through the transaction controller: what enters
 * the state-machine FIFO, and what the controller hands to the
 * transaction-user (TU) layer.
 */
module Messages {
  import opened Wrappers

  newtype byte = x: int | 0 <= x < 0x100

  /** A transaction identifier: an opaque byte string, only hashed and compared. */
  type TransactionId = seq<byte>

  /** A message in the state-machine FIFO. */
  datatype TransactionMessage =
      /** A SIP message from the wire or from the TU. Its identifier is derived
          from its headers; `tid` is None when that derivation fails. */
    | Sip(tid: Option<TransactionId>, raw: seq<byte>)
      /** A timer that fired for a transaction. */
    | Timer(timerTid: TransactionId, timer: nat)
      /** A request from the TU to abandon a server transaction. */
    | AbandonServer(abandonTid: TransactionId)
      /** A request from the TU to cancel a client INVITE transaction. */
    | CancelClientInvite(cancelTid: TransactionId)

  /** What `send` accepts: SIP messages only. */
  type SipMessage = m: TransactionMessage | m.Sip? witness Sip(None, [])

  /**
   * The message's transaction identifier; None stands for the exception a SIP
   * message throws when its identifier cannot be obtained. Control messages
   * are built from an identifier and always yield it.
   */
  function GetTransactionId(m: TransactionMessage): (r: Option<TransactionId>)
    ensures r.None? ==> m.Sip?
    ensures m.AbandonServer? ==> r == Some(m.abandonTid)
    ensures m.CancelClientInvite? ==> r == Some(m.cancelTid)
  {
    match m
    case Sip(tid, _) => tid
    case Timer(tid, _) => Some(tid)
    case AbandonServer(tid) => Some(tid)
    case CancelClientInvite(tid) => Some(tid)
  }

  /** Per-transaction state held by a worker; the state machine itself is not part of this model. */
  datatype TransactionState = TransactionState(machineState: nat)

  /**
   * A message the controller hands to the TU layer. The controller itself
   * only ever produces the shutdown notice; what the workers deliver upward is
   * not part of this model.
   */
  datatype TuMessage = ShutdownMessage
}
