/**
 * The client document of the server: its fields, the defaults a fresh
 * document takes, and the pre-save hook that derives the remaining balance
 * and the payment status from the total and received amounts.
 */
module ClientModel {
  import opened Wrappers

  /** The `status` enum accepted by the schema. */
  datatype Status = Pending | Partial | Completed

  /** The text the JSON representation carries for a status. */
  function StatusName(st: Status): (s: string)
    ensures s in {"Pending", "Partial", "Completed"}
  {
    match st
    case Pending => "Pending"
    case Partial => "Partial"
    case Completed => "Completed"
  }

  datatype EntryType = Work | PaymentEntry | Cycle

  /** One element of the (never written) `history` array. */
  datatype HistoryEntry = HistoryEntry(date: int, kind: EntryType, amount: real, status: string, description: string)

  /**
   * A stored client. Dates are local milliseconds; `nextWorkDate` is `None`
   * when null; absent strings are empty; `createdAt` is the schema timestamp.
   */
  datatype ClientDoc = ClientDoc(
    id: nat,
    userId: nat,
    name: string,
    mobile: string,
    address: string,
    workDescription: string,
    workDate: int,
    nextWorkDate: Option<int>,
    reminderTime: string,
    repeatAfterDays: int,
    totalAmount: real,
    receivedAmount: real,
    remainingAmount: real,
    status: Status,
    isActive: bool,
    history: seq<HistoryEntry>,
    createdAt: int)

  /**
   * The status branches of the pre-save hook: nothing received is Pending
   * (whatever the total), some but less than the total is Partial, and the
   * rest is Completed. The hook's third test `received >= total` always
   * holds when it is reached, so the three branches are exhaustive.
   */
  function DeriveStatus(total: real, received: real): (st: Status)
    ensures st == Pending <==> received == 0.0
    ensures st == Partial <==> received != 0.0 && received < total
    ensures st == Completed <==> received != 0.0 && received >= total
  {
    if received == 0.0 then Pending
    else if received < total then Partial
    else Completed
  }

  /** What the hook establishes on every saved document. */
  predicate Consistent(d: ClientDoc) {
    d.remainingAmount == d.totalAmount - d.receivedAmount &&
    d.status == DeriveStatus(d.totalAmount, d.receivedAmount)
  }

  /**
   * The pre-save hook: `remainingAmount := total - received`, with no
   * clamping, and the derived status. No other field changes.
   */
  function PreSave(d: ClientDoc): (r: ClientDoc)
    ensures Consistent(r)
    ensures r.(remainingAmount := d.remainingAmount, status := d.status) == d
  {
    d.(remainingAmount := d.totalAmount - d.receivedAmount,
       status := DeriveStatus(d.totalAmount, d.receivedAmount))
  }

  /** Saving a document that already satisfies the hook changes nothing; in particular the hook is idempotent. */
  lemma PreSaveFixesConsistent(d: ClientDoc)
    ensures Consistent(d) <==> PreSave(d) == d
    ensures PreSave(PreSave(d)) == PreSave(d)
  {
  }

  /**
   * A fresh document built from the schema defaults: work date now, no next
   * work date, reminder at "09:00", no repeat, all amounts 0, Pending,
   * active, empty history.
   */
  function Fresh(id: nat, userId: nat, name: string, now: int): (d: ClientDoc)
    ensures d.id == id && d.userId == userId && d.name == name && d.createdAt == now && d.workDate == now
    ensures d.nextWorkDate == None && d.reminderTime == "09:00" && d.repeatAfterDays == 0
    ensures d.totalAmount == 0.0 && d.receivedAmount == 0.0 && d.remainingAmount == 0.0
    ensures d.status == Pending && d.isActive && d.history == []
    ensures Consistent(d)
  {
    ClientDoc(id, userId, name, "", "", "", now, None, "09:00", 0,
              0.0, 0.0, 0.0, Pending, true, [], now)
  }
}
