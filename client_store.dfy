/**
 * The client routes of the server, as a store holding one table of client
 * documents (shared by all users) and the append-only payment records.
 * Every handler finds the document by id AND owner, changes it field by
 * field, and saves it, which runs the pre-save hook of `ClientModel`.
 */
module ClientRoutes {
  import opened Wrappers
  import opened ClientModel
  import Text
  import Clock
  import Query

  const OK: int := 200
  const CREATED: int := 201
  const BAD_REQUEST: int := 400
  const NOT_FOUND: int := 404
  const SERVER_ERROR: int := 500

  /** The body of `POST /`. Absent strings are empty; absent others are `None`. */
  datatype CreateBody = CreateBody(
    name: string, mobile: string, address: string, workDescription: string,
    workDate: Option<int>, nextWorkDate: Option<int>, reminderTime: string,
    repeatAfterDays: Option<int>, totalAmount: Option<real>)

  /**
   * The body of `PUT /:id`: `None` is an absent (undefined) field. For
   * `nextWorkDate`, `Some(None)` is a field that is present but empty or null.
   */
  datatype UpdateBody = UpdateBody(
    name: Option<string>, mobile: Option<string>, address: Option<string>,
    workDescription: Option<string>, workDate: Option<int>,
    nextWorkDate: Option<Option<int>>, reminderTime: Option<string>,
    repeatAfterDays: Option<int>, totalAmount: Option<real>)

  /** The body of `POST /:id/payment`; `amount` is `None` when absent or NaN. */
  datatype PaymentBody = PaymentBody(amount: Option<real>, notes: string, isFullPayment: bool)

  /** A payment record (its schema requires `amount >= 0`). */
  datatype Payment = Payment(userId: nat, clientId: nat, amount: real, paymentDate: int, notes: string)

  /** `findOne({ _id: id, userId: caller })`; the first match, if any. */
  function FindIndex(cs: seq<ClientDoc>, id: nat, caller: nat): (r: Option<nat>)
    ensures r.Some? ==> r.value < |cs| && cs[r.value].id == id && cs[r.value].userId == caller
    ensures r.None? <==> forall i :: 0 <= i < |cs| ==> !(cs[i].id == id && cs[i].userId == caller)
  {
    if cs == [] then None
    else if cs[0].id == id && cs[0].userId == caller then Some(0)
    else match FindIndex(cs[1..], id, caller)
      case None => None
      case Some(k) => Some(k + 1)
  }

  /**
   * The document `POST /` saves: received 0, remaining equal to the total,
   * Pending, defaults for the reminder time (when empty), the repeat and the
   * total (when absent), no next work date when absent; the schema trims
   * the text fields.
   */
  function NewClient(id: nat, caller: nat, b: CreateBody, now: int): (d: ClientDoc)
    ensures Consistent(d)
    ensures d.id == id && d.userId == caller && d.createdAt == now && d.name == Text.Trim(b.name)
    ensures d.mobile == Text.Trim(b.mobile) && d.address == Text.Trim(b.address) &&
            d.workDescription == Text.Trim(b.workDescription)
    ensures d.receivedAmount == 0.0 && d.remainingAmount == d.totalAmount && d.status == Pending
    ensures d.totalAmount == (if b.totalAmount.Some? then b.totalAmount.value else 0.0)
    ensures d.reminderTime == (if b.reminderTime == "" then "09:00" else b.reminderTime)
    ensures d.repeatAfterDays == (if b.repeatAfterDays.Some? then b.repeatAfterDays.value else 0)
    ensures d.nextWorkDate == b.nextWorkDate && d.workDate == (if b.workDate.Some? then b.workDate.value else now)
    ensures d.isActive && d.history == []
  {
    var total := b.totalAmount.GetOr(0.0);
    PreSave(Fresh(id, caller, Text.Trim(b.name), now).(
      mobile := Text.Trim(b.mobile),
      address := Text.Trim(b.address),
      workDescription := Text.Trim(b.workDescription),
      workDate := b.workDate.GetOr(now),
      nextWorkDate := b.nextWorkDate,
      reminderTime := if b.reminderTime == "" then "09:00" else b.reminderTime,
      repeatAfterDays := b.repeatAfterDays.GetOr(0),
      totalAmount := total,
      receivedAmount := 0.0,
      remainingAmount := total,
      status := Pending))
  }

  /**
   * The assignments of `PUT /:id`: a field present in the body replaces
   * the stored one (text trimmed by the schema; an empty next work date
   * becomes null); nothing else is touched, in particular neither the
   * received amount, the active flag nor the history.
   */
  function ApplyUpdate(d: ClientDoc, b: UpdateBody): (r: ClientDoc)
    ensures r.(name := d.name, mobile := d.mobile, address := d.address,
               workDescription := d.workDescription, workDate := d.workDate,
               nextWorkDate := d.nextWorkDate, reminderTime := d.reminderTime,
               repeatAfterDays := d.repeatAfterDays, totalAmount := d.totalAmount) == d
    ensures r.receivedAmount == d.receivedAmount && r.isActive == d.isActive && r.history == d.history
    ensures r.name == (if b.name.Some? then Text.Trim(b.name.value) else d.name)
    ensures r.mobile == (if b.mobile.Some? then Text.Trim(b.mobile.value) else d.mobile)
    ensures r.address == (if b.address.Some? then Text.Trim(b.address.value) else d.address)
    ensures r.workDescription ==
      (if b.workDescription.Some? then Text.Trim(b.workDescription.value) else d.workDescription)
    ensures b.workDate.Some? ==> r.workDate == b.workDate.value
    ensures b.workDate.None? ==> r.workDate == d.workDate
    ensures b.reminderTime.Some? ==> r.reminderTime == b.reminderTime.value
    ensures b.reminderTime.None? ==> r.reminderTime == d.reminderTime
    ensures b.repeatAfterDays.Some? ==> r.repeatAfterDays == b.repeatAfterDays.value
    ensures b.repeatAfterDays.None? ==> r.repeatAfterDays == d.repeatAfterDays
    ensures b.nextWorkDate.Some? ==> r.nextWorkDate == b.nextWorkDate.value
    ensures b.nextWorkDate.None? ==> r.nextWorkDate == d.nextWorkDate
    ensures b.totalAmount.Some? ==> r.totalAmount == b.totalAmount.value
    ensures b.totalAmount.None? ==> r.totalAmount == d.totalAmount
  {
    d.(name := if b.name.Some? then Text.Trim(b.name.value) else d.name,
       mobile := if b.mobile.Some? then Text.Trim(b.mobile.value) else d.mobile,
       address := if b.address.Some? then Text.Trim(b.address.value) else d.address,
       workDescription := if b.workDescription.Some? then Text.Trim(b.workDescription.value) else d.workDescription,
       workDate := b.workDate.GetOr(d.workDate),
       nextWorkDate := b.nextWorkDate.GetOr(d.nextWorkDate),
       reminderTime := b.reminderTime.GetOr(d.reminderTime),
       repeatAfterDays := b.repeatAfterDays.GetOr(d.repeatAfterDays),
       totalAmount := b.totalAmount.GetOr(d.totalAmount))
  }

  /** Saving after an update re-derives status and remaining from the new total and the old received amount. */
  lemma UpdateRederives(d: ClientDoc, b: UpdateBody)
    ensures PreSave(ApplyUpdate(d, b)).receivedAmount == d.receivedAmount
    ensures PreSave(ApplyUpdate(d, b)).remainingAmount == ApplyUpdate(d, b).totalAmount - d.receivedAmount
    ensures PreSave(ApplyUpdate(d, b)).status == DeriveStatus(ApplyUpdate(d, b).totalAmount, d.receivedAmount)
  {
  }

  /** `DELETE /:id`: clear the active flag and save. */
  function SoftDeleted(d: ClientDoc): (r: ClientDoc)
    ensures !r.isActive && Consistent(r)
    ensures Consistent(d) ==> r == d.(isActive := false)
  {
    PreSave(d.(isActive := false))
  }

  /**
   * `!amount && !isFullPayment`: the request names no amount. An absent or
   * NaN amount and the amount 0 are all falsy; a full payment never misses.
   */
  function MissingAmount(b: PaymentBody): (r: bool)
    ensures b.isFullPayment ==> !r
    ensures !b.isFullPayment && (b.amount.None? || b.amount == Some(0.0)) ==> r
    ensures !r ==> b.isFullPayment || (b.amount.Some? && b.amount.value != 0.0)
  {
    (b.amount.None? || b.amount.value == 0.0) && !b.isFullPayment
  }

  /**
   * The amount a payment request resolves to against the remaining balance:
   * the whole remaining balance for a full payment, the given amount
   * otherwise; rejected (`None`) unless it lies in (0, remaining].
   */
  function ResolveAmount(b: PaymentBody, remaining: real): (r: Option<real>)
    requires !MissingAmount(b)
    ensures r.Some? ==> 0.0 < r.value <= remaining
    ensures b.isFullPayment ==> r == (if remaining > 0.0 then Some(remaining) else None)
    ensures !b.isFullPayment ==>
      r == (if 0.0 < b.amount.value <= remaining then Some(b.amount.value) else None)
  {
    var p := if b.isFullPayment then remaining else b.amount.value;
    if p <= 0.0 then None
    else if p > remaining then None
    else Some(p)
  }

  /**
   * The document after an accepted payment `p`: received raised by `p` and
   * clamped to the total, remaining recomputed, then saved through the hook.
   */
  function ApplyPayment(d: ClientDoc, p: real): (r: ClientDoc)
    ensures Consistent(r)
    ensures r.receivedAmount == (if d.receivedAmount + p >= d.totalAmount then d.totalAmount else d.receivedAmount + p)
    ensures r.(receivedAmount := d.receivedAmount, remainingAmount := d.remainingAmount, status := d.status) == d
  {
    var received := d.receivedAmount + p;
    var d1 := if received >= d.totalAmount then d.(receivedAmount := d.totalAmount, status := Completed)
              else if received > 0.0 then d.(receivedAmount := received, status := Partial)
              else d.(receivedAmount := received);
    PreSave(d1.(remainingAmount := d1.totalAmount - d1.receivedAmount))
  }

  /**
   * On a consistent document a payment that passed validation raises the
   * received amount by exactly that amount (the clamp never bites) and
   * lowers the remaining balance by it.
   */
  lemma PaymentIsExact(d: ClientDoc, p: real)
    requires Consistent(d) && 0.0 < p <= d.remainingAmount
    ensures ApplyPayment(d, p).receivedAmount == d.receivedAmount + p
    ensures ApplyPayment(d, p).remainingAmount == d.remainingAmount - p
  {
  }

  /**
   * A full payment settles the balance: remaining 0 and received equal to
   * the total; the status is Completed unless the total is 0, which the
   * hook reports as Pending.
   */
  lemma FullPaymentSettles(d: ClientDoc)
    requires Consistent(d) && d.remainingAmount > 0.0
    ensures ApplyPayment(d, d.remainingAmount).remainingAmount == 0.0
    ensures ApplyPayment(d, d.remainingAmount).receivedAmount == d.totalAmount
    ensures ApplyPayment(d, d.remainingAmount).status == if d.totalAmount == 0.0 then Pending else Completed
  {
  }

  /**
   * `PUT /:id/complete`: received := total and remaining := 0, then the
   * hook, which makes the status Completed except for a zero total (Pending).
   */
  function MarkedComplete(d: ClientDoc): (r: ClientDoc)
    ensures Consistent(r)
    ensures r.receivedAmount == r.totalAmount && r.remainingAmount == 0.0
    ensures r.status == if d.totalAmount == 0.0 then Pending else Completed
    ensures r.(receivedAmount := d.receivedAmount, remainingAmount := d.remainingAmount, status := d.status) == d
  {
    PreSave(d.(status := Completed, receivedAmount := d.totalAmount, remainingAmount := 0.0))
  }

  /** The last millisecond of tomorrow: `setDate(+1)` then `setHours(23, 59, 59, 999)`. */
  function EndOfTomorrow(now: int): (r: int)
    ensures Clock.DayIndex(r) == Clock.DayIndex(now) + 1
    ensures Clock.TimeOfDay(r) == Clock.MS_PER_DAY - 1
  {
    var midnight := Clock.StartOfDay(Clock.AddDays(now, 1));
    Clock.DayOfOffset(midnight, 0, Clock.MS_PER_DAY - 1);
    midnight + 23 * Clock.MS_PER_HOUR + 59 * Clock.MS_PER_MINUTE + 59 * 1000 + 999
  }

  /**
   * The filter of `GET /reminders/upcoming` (a stored reminder time is never
   * null): the caller's active clients whose next work date is from now to
   * the end of tomorrow's calendar day.
   */
  function IsUpcoming(c: ClientDoc, caller: nat, now: int): (r: bool)
    ensures r <==>
      c.userId == caller && c.isActive && c.nextWorkDate.Some? &&
      now <= c.nextWorkDate.value && Clock.DayIndex(c.nextWorkDate.value) <= Clock.DayIndex(now) + 1
  {
    var bound := EndOfTomorrow(now);
    assert bound == (Clock.DayIndex(now) + 2) * Clock.MS_PER_DAY - 1;
    c.userId == caller && c.isActive && c.nextWorkDate.Some? &&
    now <= c.nextWorkDate.value <= bound
  }

  class ClientStore {
    var clients: seq<ClientDoc>
    var payments: seq<Payment>
    var nextId: nat

    /** Every document was saved through the hook, has a name, and has its own id. */
    ghost predicate Valid()
      reads this
    {
      (forall i :: 0 <= i < |clients| ==>
        Consistent(clients[i]) && clients[i].name != "" && clients[i].id < nextId) &&
      (forall i, j :: 0 <= i < j < |clients| ==> clients[i].id != clients[j].id)
    }

    constructor ()
      ensures Valid() && clients == [] && payments == []
    {
      clients, payments, nextId := [], [], 0;
    }

    /** `GET /`: exactly the caller's active clients, newest first. */
    method List(caller: nat) returns (code: int, r: seq<ClientDoc>)
      ensures code == OK
      ensures forall c :: multiset(r)[c] == if c.userId == caller && c.isActive then multiset(clients)[c] else 0
      ensures forall i, j :: 0 <= i < j < |r| ==> r[i].createdAt >= r[j].createdAt
    {
      var mine := Query.Filter(clients, (c: ClientDoc) => c.userId == caller && c.isActive);
      r := Query.SortBy(mine, (c: ClientDoc) => -c.createdAt);
      code := OK;
    }

    /** `GET /:id`: found by id and owner only, so a soft-deleted client is still returned. */
    method Get(caller: nat, id: nat) returns (code: int, r: Option<ClientDoc>)
      ensures code == OK || code == NOT_FOUND
      ensures code == OK <==> exists i :: 0 <= i < |clients| && clients[i].id == id && clients[i].userId == caller
      ensures code == OK ==> r.Some? && r.value in clients && r.value.id == id && r.value.userId == caller
      ensures code == NOT_FOUND ==> r.None?
    {
      var k := FindIndex(clients, id, caller);
      if k.None? {
        code, r := NOT_FOUND, None;
      } else {
        code, r := OK, Some(clients[k.value]);
      }
    }

    /** `POST /`: 400 without a name, a validation failure (500) when the trimmed name is empty. */
    method Create(caller: nat, body: CreateBody, now: int) returns (code: int, r: Option<ClientDoc>)
      requires Valid()
      modifies this
      ensures Valid() && payments == old(payments)
      ensures body.name == "" ==> code == BAD_REQUEST && r.None? && clients == old(clients)
      ensures body.name != "" && Text.Trim(body.name) == "" ==> code == SERVER_ERROR && r.None? && clients == old(clients)
      ensures Text.Trim(body.name) != "" ==>
        code == CREATED && r == Some(NewClient(old(nextId), caller, body, now)) &&
        clients == old(clients) + [r.value]
    {
      if body.name == "" {
        code, r := BAD_REQUEST, None;
        return;
      }
      var d := NewClient(nextId, caller, body, now);
      if d.name == "" {
        code, r := SERVER_ERROR, None;
        return;
      }
      AppendKeepsValid(d);
      clients := clients + [d];
      nextId := nextId + 1;
      code, r := CREATED, Some(d);
    }

    lemma AppendKeepsValid(d: ClientDoc)
      requires Valid() && Consistent(d) && d.name != "" && d.id == nextId
      ensures var cs := clients + [d];
        (forall i :: 0 <= i < |cs| ==> Consistent(cs[i]) && cs[i].name != "" && cs[i].id < nextId + 1) &&
        (forall i, j :: 0 <= i < j < |cs| ==> cs[i].id != cs[j].id)
    {
    }

    /** `PUT /:id`: assign the present fields and save; 404 for a foreign or unknown id. */
    method Update(caller: nat, id: nat, body: UpdateBody) returns (code: int, r: Option<ClientDoc>)
      requires Valid()
      modifies this
      ensures Valid() && payments == old(payments)
      ensures old(FindIndex(clients, id, caller)).None? ==> code == NOT_FOUND && r.None? && clients == old(clients)
      ensures old(FindIndex(clients, id, caller)).Some? ==>
        var k := old(FindIndex(clients, id, caller)).value;
        var u := ApplyUpdate(old(clients)[k], body);
        if u.name == "" then code == SERVER_ERROR && r.None? && clients == old(clients)
        else code == OK && r == Some(PreSave(u)) && clients == old(clients)[k := PreSave(u)]
    {
      var k := FindIndex(clients, id, caller);
      if k.None? {
        code, r := NOT_FOUND, None;
        return;
      }
      var u := ApplyUpdate(clients[k.value], body);
      if u.name == "" {
        code, r := SERVER_ERROR, None;
        return;
      }
      var saved := PreSave(u);
      clients := clients[k.value := saved];
      code, r := OK, Some(saved);
    }

    /** `DELETE /:id`: the soft delete changes only the active flag. */
    method Delete(caller: nat, id: nat) returns (code: int)
      requires Valid()
      modifies this
      ensures Valid() && payments == old(payments)
      ensures old(FindIndex(clients, id, caller)).None? ==> code == NOT_FOUND && clients == old(clients)
      ensures old(FindIndex(clients, id, caller)).Some? ==>
        var k := old(FindIndex(clients, id, caller)).value;
        code == OK && clients == old(clients)[k := old(clients)[k].(isActive := false)]
    {
      var k := FindIndex(clients, id, caller);
      if k.None? {
        code := NOT_FOUND;
        return;
      }
      clients := clients[k.value := SoftDeleted(clients[k.value])];
      code := OK;
    }

    /** `GET /reminders/upcoming`: the caller's active clients due between now and the end of tomorrow, soonest first. */
    method Upcoming(caller: nat, now: int) returns (code: int, r: seq<ClientDoc>)
      ensures code == OK
      ensures forall c :: multiset(r)[c] == if IsUpcoming(c, caller, now) then multiset(clients)[c] else 0
      ensures forall i :: 0 <= i < |r| ==> IsUpcoming(r[i], caller, now)
      ensures forall i, j :: 0 <= i < j < |r| ==> r[i].nextWorkDate.GetOr(0) <= r[j].nextWorkDate.GetOr(0)
    {
      var due := Query.Filter(clients, (c: ClientDoc) => IsUpcoming(c, caller, now));
      r := Query.SortBy(due, (c: ClientDoc) => c.nextWorkDate.GetOr(0));
      forall i | 0 <= i < |r| ensures IsUpcoming(r[i], caller, now) {
        assert r[i] in multiset(r);
      }
      code := OK;
    }

    /**
     * `POST /:id/payment`: 400 when no amount is named (before the lookup),
     * 404 for a foreign or unknown id, 400 when the resolved amount is not in
     * (0, remaining]; otherwise one payment record and the updated client.
     */
    method AddPayment(caller: nat, id: nat, body: PaymentBody, now: int)
      returns (code: int, payment: Option<Payment>, client: Option<ClientDoc>)
      requires Valid()
      modifies this
      ensures Valid()
      ensures code != CREATED ==> payment.None? && client.None? && clients == old(clients) && payments == old(payments)
      ensures MissingAmount(body) ==> code == BAD_REQUEST
      ensures !MissingAmount(body) && old(FindIndex(clients, id, caller)).None? ==> code == NOT_FOUND
      ensures !MissingAmount(body) && old(FindIndex(clients, id, caller)).Some? ==>
        var k := old(FindIndex(clients, id, caller)).value;
        var d := old(clients)[k];
        match ResolveAmount(body, d.remainingAmount)
        case None => code == BAD_REQUEST
        case Some(p) =>
          code == CREATED &&
          payment == Some(Payment(caller, d.id, p, now, Text.Trim(body.notes))) &&
          payments == old(payments) + [payment.value] &&
          client == Some(ApplyPayment(d, p)) &&
          clients == old(clients)[k := client.value]
    {
      payment, client := None, None;
      if MissingAmount(body) {
        code := BAD_REQUEST;
        return;
      }
      var k := FindIndex(clients, id, caller);
      if k.None? {
        code := NOT_FOUND;
        return;
      }
      var d := clients[k.value];
      var p := ResolveAmount(body, d.remainingAmount);
      if p.None? {
        code := BAD_REQUEST;
        return;
      }
      var record := Payment(caller, d.id, p.value, now, Text.Trim(body.notes));
      payments := payments + [record];
      var saved := ApplyPayment(d, p.value);
      clients := clients[k.value := saved];
      code, payment, client := CREATED, Some(record), Some(saved);
    }

    /** `PUT /:id/complete`: settle the client in full; 404 for a foreign or unknown id. */
    method Complete(caller: nat, id: nat) returns (code: int, r: Option<ClientDoc>)
      requires Valid()
      modifies this
      ensures Valid() && payments == old(payments)
      ensures old(FindIndex(clients, id, caller)).None? ==> code == NOT_FOUND && r.None? && clients == old(clients)
      ensures old(FindIndex(clients, id, caller)).Some? ==>
        var k := old(FindIndex(clients, id, caller)).value;
        code == OK && r == Some(MarkedComplete(old(clients)[k])) && clients == old(clients)[k := r.value]
    {
      var k := FindIndex(clients, id, caller);
      if k.None? {
        code, r := NOT_FOUND, None;
        return;
      }
      var saved := MarkedComplete(clients[k.value]);
      clients := clients[k.value := saved];
      code, r := OK, Some(saved);
    }
  }
}
