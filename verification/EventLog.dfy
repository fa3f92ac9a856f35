/** The append-only event log and the trigger channels both event senders share. */
module EventLog {
  import opened Types

  /** An event of the log; `tx` is the transaction it is about. */
  datatype Notification = Notification(seqNo: int, newAddress: bool, tx: TxId)

  ghost predicate Increasing(log: seq<Notification>) {
    forall i, j :: 0 <= i < j < |log| ==> log[i].seqNo < log[j].seqNo
  }

  /** Each trigger channel has three slots. */
  const TRIGGER_SLOTS: nat := 3
}
