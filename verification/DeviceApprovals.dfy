/** Overlapping approvals of one device.

    An approval writes the device's trust row before it sends the frame that tells the joiner, waits
    for the delivery, and puts the row back when delivery fails.  Any number of approvals of the same
    device may wait at once; they share one baseline, the row to go back to.
 */
module DeviceApprovals {
  import opened Prelude

  /** Device ids, user ids, secrets, timestamps and reasons are only ever compared for equality. */
  type Id = nat

  datatype PairingStatus = Authorized | RejoinPending | OtherStatus(status: Id)

  /** The seven trust columns of a device. */
  datatype TrustRow = TrustRow(
    authorizedAt: Option<Id>, authorizedBy: Option<Id>, pairingStatus: PairingStatus,
    secret: Option<Id>, revokedAt: Option<Id>, revokedBy: Option<Id>, revocationReason: Option<Id>)

  /** What one call of approveDevice holds on to while it waits. */
  datatype Call = Call(secret: Id, now: Id, user: Id)

  function Written(c: Call): TrustRow {
    TrustRow(Some(c.now), Some(c.user), Authorized, Some(c.secret), None, None, None)
  }

  /** The columns that an approval leaves, one by one. */
  ghost predicate ApprovedBy(row: TrustRow, c: Call) {
    && row.authorizedAt == Some(c.now) && row.authorizedBy == Some(c.user)
    && row.pairingStatus == Authorized && row.secret == Some(c.secret)
    && row.revokedAt == None && row.revokedBy == None && row.revocationReason == None
  }

  function Expired(row: TrustRow): TrustRow {
    if row.pairingStatus == RejoinPending then row.(pairingStatus := Authorized) else row
  }

  // ----- The protocol on one device -----

  datatype Slot = Slot(baseline: TrustRow, count: int)

  datatype Desk = Desk(row: TrustRow, inflight: Option<Slot>, waiting: set<Call>)

  datatype Event = Start(call: Call) | Settle(call: Call, delivered: bool) | Expire

  function Quiet(row: TrustRow): Desk {
    Desk(row, None, {})
  }

  /** The shared slot, or a new one that remembers the row as it stands. */
  function SlotOf(d: Desk): Slot {
    if d.inflight.Some? then d.inflight.value else Slot(d.row, 0)
  }

  function Step(d: Desk, e: Event): Desk {
    match e
    case Start(c) =>
      var slot := SlotOf(d);
      Desk(Written(c), Some(slot.(count := slot.count + 1)), d.waiting + {c})
    case Settle(c, delivered) =>
      if d.inflight.None? then d
      else
        var slot := d.inflight.value;
        var row := if !delivered && d.row.secret == Some(c.secret) then slot.baseline else d.row;
        var left := Slot(if delivered then Written(c) else slot.baseline, slot.count - 1);
        Desk(row, if left.count == 0 then None else Some(left), d.waiting - {c})
    case Expire => d.(row := Expired(d.row))
  }

  function Exec(d: Desk, events: seq<Event>): Desk {
    if events == [] then d else Step(Exec(d, events[..|events| - 1]), events[|events| - 1])
  }

  // ----- The two objects the source mutates -----

  /** Shared by every approval of one device that waits. */
  class Inflight {
    var baseline: TrustRow
    var count: int
    ghost var waiting: set<Call>
    ghost const device: Id

    constructor (baseline: TrustRow, ghost device: Id)
      ensures this.baseline == baseline && count == 0 && waiting == {} && this.device == device
    {
      this.device := device;
      this.baseline := baseline;
      this.count := 0;
      waiting := {};
    }

    /** One more approval waits. */
    method Join(ghost call: Call)
      modifies this
      ensures AsSlot() == Slot(old(baseline), old(count) + 1) && waiting == old(waiting) + {call}
    {
      count := count + 1;
      waiting := waiting + {call};
    }

    ghost predicate Valid(device: Id)
      reads this
    {
      this.device == device && count == |waiting| > 0
    }

    ghost function AsSlot(): Slot
      reads this
    {
      Slot(baseline, count)
    }
  }

  /** A suspended approval: its own variables and its reference to the shared object. */
  datatype Ticket = Ticket(device: Id, call: Call, inflight: Inflight)

  datatype Refusal = NoSuchDevice | DeviceRevoked | PairAgainExpired

  class Approvals {
    var rows: map<Id, TrustRow>
    var inflightApprovals: map<Id, Inflight>
    ghost var slots: set<Inflight>  // every shared object there ever was

    ghost predicate Valid()
      reads this, slots
    {
      && inflightApprovals.Keys <= rows.Keys
      && (forall d :: d in inflightApprovals ==> inflightApprovals[d] in slots && inflightApprovals[d].Valid(d))
    }

    ghost function DeskOf(device: Id): Desk
      requires Valid() && device in rows
      reads this, slots
    {
      if device in inflightApprovals
      then Desk(rows[device], Some(inflightApprovals[device].AsSlot()), inflightApprovals[device].waiting)
      else Quiet(rows[device])
    }

    constructor (rows: map<Id, TrustRow>)
      ensures Valid() && this.rows == rows
      ensures forall d :: d in rows ==> DeskOf(d) == Quiet(rows[d])
    {
      this.rows := rows;
      inflightApprovals := map[];
      slots := {};
    }

    /** The guards before an approval writes anything.  `authorityRevoked` and `requestExpired` are what
        the authority cache and the age of the Pair-again request say about the device. */
    method Refuse(device: Id, authorityRevoked: bool, requestExpired: bool) returns (refusal: Option<Refusal>)
      requires Valid()
      modifies this`rows
      ensures Valid() && rows.Keys == old(rows.Keys)
      ensures forall d :: d in rows && (d != device || refusal != Some(PairAgainExpired)) ==> rows[d] == old(rows)[d]
      ensures refusal == Some(NoSuchDevice) <==> device !in rows
      ensures refusal == Some(DeviceRevoked) <==>
                device in rows && (old(rows)[device].revokedAt.Some? || authorityRevoked)
      ensures refusal == Some(PairAgainExpired) <==>
                && device in rows && old(rows)[device].revokedAt.None? && !authorityRevoked
                && old(rows)[device].pairingStatus == RejoinPending && requestExpired
      ensures refusal == Some(PairAgainExpired) ==>
                && DeskOf(device) == Step(old(DeskOf(device)), Expire)
                && rows[device] == old(rows)[device].(pairingStatus := Authorized)
    {
      if device !in rows { return Some(NoSuchDevice); }
      var existing := rows[device];
      if existing.revokedAt.Some? || authorityRevoked { return Some(DeviceRevoked); }
      if existing.pairingStatus == RejoinPending && requestExpired {
        rows := rows[device := existing.(pairingStatus := Authorized)];
        return Some(PairAgainExpired);
      }
      return None;
    }

    method WriteRow(device: Id, row: TrustRow)
      requires Valid() && device in rows
      modifies this`rows
      ensures Valid() && rows == old(rows)[device := row]
      ensures DeskOf(device) == old(DeskOf(device)).(row := row)
    {
      rows := rows[device := row];
    }

    /** The shared object of the approvals that wait, or a new one that remembers the row as it stood. */
    method InflightOf(device: Id, existing: TrustRow) returns (inflight: Inflight)
      requires Valid() && device in rows
      modifies this`slots
      ensures Valid() && inflight in slots && slots == old(slots) + {inflight} && inflight.device == device
      ensures if device in inflightApprovals then inflight == inflightApprovals[device]
              else fresh(inflight) && inflight.count == |inflight.waiting|
      ensures DeskOf(device) == old(DeskOf(device))
      ensures inflight.AsSlot() == SlotOf(DeskOf(device).(row := existing))
      ensures inflight.waiting == DeskOf(device).waiting
    {
      if device in inflightApprovals {
        inflight := inflightApprovals[device];
      } else {
        inflight := new Inflight(existing, device);
        slots := slots + {inflight};
      }
    }

    /** Counts the call in and shares the object. */
    method Enter(device: Id, ghost call: Call, inflight: Inflight)
      requires Valid() && device in rows && inflight in slots && inflight.device == device
      requires if device in inflightApprovals then inflightApprovals[device] == inflight
               else inflight.count == |inflight.waiting|
      requires call !in inflight.waiting
      modifies this`inflightApprovals, inflight
      ensures Valid() && inflightApprovals == old(inflightApprovals)[device := inflight]
      ensures DeskOf(device) == Desk(rows[device], Some(Slot(old(inflight.baseline), old(inflight.count) + 1)),
                                     old(inflight.waiting) + {call})
    {
      inflight.Join(call);
      inflightApprovals := inflightApprovals[device := inflight];
    }

    /** The write, and joining the approvals already waiting, up to the await. */
    method Begin(device: Id, call: Call) returns (t: Ticket)
      requires Valid() && device in rows && call !in DeskOf(device).waiting
      modifies this, (if device in inflightApprovals then {inflightApprovals[device]} else {})
      ensures Valid() && fresh(slots - old(slots))
      ensures rows == old(rows)[device := Written(call)] && ApprovedBy(rows[device], call)
      ensures inflightApprovals == old(inflightApprovals)[device := t.inflight]
      ensures t.device == device && t.call == call
      ensures DeskOf(device) == Step(old(DeskOf(device)), Start(call))
    {
      assert ApprovedBy(Written(call), call);
      hide Written, ApprovedBy;
      ghost var before := DeskOf(device);
      var existing := rows[device];
      assert before.row == existing;
      hide DeskOf;
      WriteRow(device, Written(call));
      var inflight := InflightOf(device, existing);
      assert inflight.AsSlot() == SlotOf(before) && inflight.waiting == before.waiting;
      Enter(device, call, inflight);
      t := Ticket(device, call, inflight);
    }

    /** Everything after the await. */
    method Settle(t: Ticket, delivered: bool)
      requires Valid()
      requires t.device in inflightApprovals && inflightApprovals[t.device] == t.inflight
      requires t.call in t.inflight.waiting
      modifies this, t.inflight
      ensures Valid() && slots == old(slots)
      ensures rows.Keys == old(rows.Keys) && forall d :: d in rows && d != t.device ==> rows[d] == old(rows)[d]
      ensures inflightApprovals - {t.device} == old(inflightApprovals) - {t.device}
      ensures DeskOf(t.device) == Step(old(DeskOf(t.device)), Event.Settle(t.call, delivered))
      ensures delivered ==> rows == old(rows) && ApprovedBy(t.inflight.baseline, t.call)
      ensures !delivered ==>
                && t.inflight.baseline == old(t.inflight.baseline)
                && rows == if old(rows)[t.device].secret == Some(t.call.secret)
                           then old(rows)[t.device := t.inflight.baseline] else old(rows)
    {
      t.inflight.count := t.inflight.count - 1;
      t.inflight.waiting := t.inflight.waiting - {t.call};
      assert old(t.inflight.waiting) == t.inflight.waiting + {t.call};
      if t.inflight.count == 0 {
        inflightApprovals := inflightApprovals - {t.device};
      }
      var baseline := t.inflight.baseline;
      if !delivered {
        if rows[t.device].secret == Some(t.call.secret) {
          rows := rows[t.device := baseline];
        }
        return;
      }
      t.inflight.baseline := Written(t.call);
    }
  }

  // ----- What the row should be, said from the history alone -----

  function InFlight(events: seq<Event>): set<Call> {
    if events == [] then {}
    else
      var before := InFlight(events[..|events| - 1]);
      match events[|events| - 1]
      case Start(c) => before + {c}
      case Settle(c, _) => before - {c}
      case Expire => before
  }

  predicate Started(events: seq<Event>, c: Call) {
    Start(c) in events
  }

  /** One window of overlapping approvals of a device whose row was `first`: it opens with an approval,
      every later approval overlaps one still waiting, and every secret is fresh. */
  ghost predicate Window(first: TrustRow, events: seq<Event>) {
    events == []
    || var before := events[..|events| - 1];
       && Window(first, before)
       && match events[|events| - 1]
          case Start(c) =>
            && (before == [] || InFlight(before) != {})
            && Some(c.secret) != first.secret
            && (forall c' :: Started(before, c') ==> c'.secret != c.secret)
          case Settle(c, _) => c in InFlight(before)
          case Expire => before != []
  }

  /** The call of the last Start. */
  function LastStarted(events: seq<Event>): Option<Call> {
    if events == [] then None
    else match events[|events| - 1]
      case Start(c) => Some(c)
      case _ => LastStarted(events[..|events| - 1])
  }

  /** The row of the delivered call that settled most recently, else `first`. */
  function LastDelivered(first: TrustRow, events: seq<Event>): TrustRow {
    if events == [] then first
    else match events[|events| - 1]
      case Settle(c, true) => Written(c)
      case _ => LastDelivered(first, events[..|events| - 1])
  }

  /** The events up to and including the settlement of `c`, and those after it. */
  function UpToSettled(events: seq<Event>, c: Call): (r: Option<seq<Event>>)
    ensures r.Some? ==> 0 < |r.value| <= |events| && r.value == events[..|r.value|]
                        && r.value[|r.value| - 1].Settle? && r.value[|r.value| - 1].call == c
    ensures r.None? ==> Event.Settle(c, true) !in events && Event.Settle(c, false) !in events
  {
    if events == [] then None
    else
      var last := events[|events| - 1];
      if last.Settle? && last.call == c then Some(events) else UpToSettled(events[..|events| - 1], c)
  }

  /** The last-started call's row when it was delivered or still waits; when it failed, the row of the
      delivered call that had settled most recently by then, else the row before the first approval
      (with an expired Pair-again request noted on whichever of these was put back). */
  function Outcome(first: TrustRow, events: seq<Event>): TrustRow {
    match LastStarted(events)
    case None => first
    case Some(last) =>
      match UpToSettled(events, last)
      case None => Written(last)
      case Some(settled) =>
        if settled[|settled| - 1].delivered then Written(last)
        else
          var restored := LastDelivered(first, settled);
          if Expire in events[|settled|..] then Expired(restored) else restored
  }

  // ----- Main results -----

  ghost predicate Agrees(first: TrustRow, events: seq<Event>, d: Desk) {
    && d.waiting == InFlight(events)
    && d.row == Outcome(first, events)
    && (d.inflight.None? <==> InFlight(events) == {})
    && (d.inflight.Some? ==> d.inflight.value == Slot(LastDelivered(first, events), |InFlight(events)|))
  }

  lemma {:induction false} WaitingCallsStarted(first: TrustRow, events: seq<Event>, c: Call)
    requires Window(first, events) && c in InFlight(events)
    ensures Started(events, c) && UpToSettled(events, c) == None
  {
    var before, e := events[..|events| - 1], events[|events| - 1];
    if e.Start? && e.call == c {
      if UpToSettled(before, c).Some? { SettledCallsStarted(first, before, c); }
    } else {
      WaitingCallsStarted(first, before, c);
    }
  }

  lemma {:induction false} SettledCallsStarted(first: TrustRow, events: seq<Event>, c: Call)
    requires Window(first, events) && UpToSettled(events, c).Some?
    ensures Started(events, c) && c !in InFlight(events)
  {
    var before, e := events[..|events| - 1], events[|events| - 1];
    if e.Settle? && e.call == c {
      WaitingCallsStarted(first, before, c);
    } else {
      SettledCallsStarted(first, before, c);
    }
  }

  lemma {:induction false} SecretsAreUnique(first: TrustRow, events: seq<Event>, c: Call, c': Call)
    requires Window(first, events) && Started(events, c) && Started(events, c') && c.secret == c'.secret
    ensures c == c' && Some(c.secret) != first.secret
  {
    var before, e := events[..|events| - 1], events[|events| - 1];
    if Started(before, c) && Started(before, c') {
      SecretsAreUnique(first, before, c, c');
    }
  }

  lemma {:induction false} DeliveredRowIsASettledCall(first: TrustRow, events: seq<Event>)
    requires Window(first, events)
    ensures LastDelivered(first, events) == first
         || exists c :: Event.Settle(c, true) in events && UpToSettled(events, c).Some? && Started(events, c)
                        && LastDelivered(first, events) == Written(c)
  {
    if events != [] {
      var before, e := events[..|events| - 1], events[|events| - 1];
      if e.Settle? && e.delivered {
        WaitingCallsStarted(first, before, e.call);
      } else {
        DeliveredRowIsASettledCall(first, before);
      }
    }
  }

  lemma {:induction false} PrefixIsAWindow(first: TrustRow, events: seq<Event>, k: nat)
    requires Window(first, events) && k <= |events|
    ensures Window(first, events[..k])
  {
    if k < |events| {
      var n := |events| - 1;
      PrefixIsAWindow(first, events[..n], k);
      assert events[..n][..k] == events[..k];
    } else {
      assert events[..k] == events;
    }
  }

  lemma {:induction false} WindowsOpenWithAStart(first: TrustRow, events: seq<Event>)
    requires Window(first, events) && events != []
    ensures LastStarted(events).Some? && Started(events, LastStarted(events).value)
  {
    var before := events[..|events| - 1];
    if before != [] { WindowsOpenWithAStart(first, before); }
  }

  /** The row never carries the secret of a waiting call other than the last one started. */
  lemma RowIsNotAnEarlierWaiter(first: TrustRow, events: seq<Event>, c: Call)
    requires Window(first, events) && c in InFlight(events)
    requires LastStarted(events) != Some(c)
    ensures Outcome(first, events).secret != Some(c.secret)
  {
    WindowsOpenWithAStart(first, events);
    WaitingCallsStarted(first, events, c);
    var last := LastStarted(events).value;
    if last.secret == c.secret { SecretsAreUnique(first, events, c, last); }
    SecretsAreUnique(first, events, c, c);
    var settled := UpToSettled(events, last);
    if settled.Some? {
      PrefixIsAWindow(first, events, |settled.value|);
      DeliveredRowIsASettledCall(first, settled.value);
      if LastDelivered(first, settled.value) != first {
        var d :| Event.Settle(d, true) in settled.value && Started(settled.value, d)
                 && LastDelivered(first, settled.value) == Written(d);
        if d.secret == c.secret { SecretsAreUnique(first, events, c, d); }
      }
    }
  }

  /** The protocol with its shared, mutable baseline computes the outcome read off the history: at every
      point of every window of overlapping approvals, for any interleaving and any deliveries. */
  lemma {:induction false} RowIsTheOutcome(first: TrustRow, events: seq<Event>)
    requires Window(first, events)
    ensures Agrees(first, events, Exec(Quiet(first), events))
  {
    if events != [] {
      var before, e := events[..|events| - 1], events[|events| - 1];
      RowIsTheOutcome(first, before);
      match e {
        case Start(c) => StartAgrees(first, events, c);
        case Settle(c, delivered) => SettleAgrees(first, events, c, delivered);
        case Expire => ExpireAgrees(first, events);
      }
    }
  }

  lemma StartAgrees(first: TrustRow, events: seq<Event>, c: Call)
    requires Window(first, events) && events != [] && events[|events| - 1] == Start(c)
    requires Agrees(first, events[..|events| - 1], Exec(Quiet(first), events[..|events| - 1]))
    ensures Agrees(first, events, Exec(Quiet(first), events))
  {
    var before := events[..|events| - 1];
    if c in InFlight(before) { WaitingCallsStarted(first, before, c); }
    if UpToSettled(before, c).Some? { SettledCallsStarted(first, before, c); }
  }

  lemma OutcomeAfterSettle(first: TrustRow, events: seq<Event>, c: Call, delivered: bool)
    requires Window(first, events) && events != [] && events[|events| - 1] == Event.Settle(c, delivered)
    ensures var before := events[..|events| - 1];
            Outcome(first, events) == if LastStarted(before) == Some(c) && !delivered
                                      then LastDelivered(first, before) else Outcome(first, before)
    ensures LastStarted(events[..|events| - 1]) == Some(c) ==> Outcome(first, events[..|events| - 1]) == Written(c)
  {
    var before := events[..|events| - 1];
    WindowsOpenWithAStart(first, before);
    WaitingCallsStarted(first, before, c);
    var last := LastStarted(before).value;
    var settled := UpToSettled(before, last);
    if c != last && settled.Some? {
      var k := |settled.value|;
      assert events[k..] == before[k..] + [Event.Settle(c, delivered)];
    }
  }

  lemma SettleAgrees(first: TrustRow, events: seq<Event>, c: Call, delivered: bool)
    requires Window(first, events) && events != [] && events[|events| - 1] == Event.Settle(c, delivered)
    requires Agrees(first, events[..|events| - 1], Exec(Quiet(first), events[..|events| - 1]))
    ensures Agrees(first, events, Exec(Quiet(first), events))
  {
    var before := events[..|events| - 1];
    assert InFlight(before) == InFlight(events) + {c};
    OutcomeAfterSettle(first, events, c, delivered);
    if LastStarted(before) != Some(c) {
      RowIsNotAnEarlierWaiter(first, before, c);
    }
  }

  lemma ExpireIsSilent(first: TrustRow, before: seq<Event>, c: Call)
    ensures var events := before + [Expire];
            && InFlight(events) == InFlight(before) && LastStarted(events) == LastStarted(before)
            && UpToSettled(events, c) == UpToSettled(before, c)
               && LastDelivered(first, events) == LastDelivered(first, before)
            && Exec(Quiet(first), events) == Step(Exec(Quiet(first), before), Expire)
  {
    assert (before + [Expire])[..|before|] == before;
  }

  lemma OutcomeAfterExpire(first: TrustRow, before: seq<Event>)
    requires LastStarted(before).Some?
    ensures Outcome(first, before + [Expire]) == Expired(Outcome(first, before))
  {
    hide LastStarted, UpToSettled, LastDelivered;
    var last := LastStarted(before).value;
    ExpireIsSilent(first, before, last);
    var settled := UpToSettled(before, last);
    if settled.Some? {
      assert (before + [Expire])[|settled.value|..] == before[|settled.value|..] + [Expire];
    }
  }

  lemma ExpireAgrees(first: TrustRow, events: seq<Event>)
    requires Window(first, events) && events != [] && events[|events| - 1] == Expire
    requires Agrees(first, events[..|events| - 1], Exec(Quiet(first), events[..|events| - 1]))
    ensures Agrees(first, events, Exec(Quiet(first), events))
  {
    var before := events[..|events| - 1];
    assert events == before + [Expire] && Window(first, before) && before != [];
    hide Window, InFlight, LastStarted, UpToSettled, LastDelivered, Exec, Outcome, Expired;
    WindowsOpenWithAStart(first, before);
    ExpireIsSilent(first, before, LastStarted(before).value);
    OutcomeAfterExpire(first, before);
  }

  /** Once no approval waits, the row is the one before the window or the one of a delivered call, apart
      from the status of an expired request, and the desk is ready for the next window. */
  lemma NoUndeliveredWriteSurvives(first: TrustRow, events: seq<Event>)
    requires Window(first, events) && InFlight(events) == {}
    ensures Exec(Quiet(first), events) == Quiet(Outcome(first, events))
    ensures var row := Exec(Quiet(first), events).row;
            || row == first || row == Expired(first)
            || exists c :: Event.Settle(c, true) in events && row == Written(c)
  {
    RowIsTheOutcome(first, events);
    if events != [] {
      WindowsOpenWithAStart(first, events);
      var last := LastStarted(events).value;
      NotWaitingMeansSettled(first, events, last);
      var settled := UpToSettled(events, last).value;
      PrefixIsAWindow(first, events, |settled|);
      DeliveredRowIsASettledCall(first, settled);
    }
  }

  lemma {:induction false} NotWaitingMeansSettled(first: TrustRow, events: seq<Event>, c: Call)
    requires Window(first, events) && Started(events, c) && c !in InFlight(events)
    ensures UpToSettled(events, c).Some?
  {
    var before, e := events[..|events| - 1], events[|events| - 1];
    if !(e.Settle? && e.call == c) {
      assert Started(before, c);
      NotWaitingMeansSettled(first, before, c);
    }
  }

  lemma OneMoreEvent(first: TrustRow, events: seq<Event>, e: Event)
    ensures Exec(Quiet(first), events + [e]) == Step(Exec(Quiet(first), events), e)
    ensures e.Start? ==>
              && InFlight(events + [e]) == InFlight(events) + {e.call}
              && (Window(first, events + [e]) <==>
                    && Window(first, events) && (events == [] || InFlight(events) != {})
                    && Some(e.call.secret) != first.secret
                    && forall c :: Started(events, c) ==> c.secret != e.call.secret)
    ensures e.Settle? ==>
              && InFlight(events + [e]) == InFlight(events) - {e.call}
              && (Window(first, events + [e]) <==> Window(first, events) && e.call in InFlight(events))
  {
    assert (events + [e])[..|events|] == events;
  }

  // ----- Column by column -----

  /** While the last-started call waits, and ever after it was delivered, the row is the one it wrote. */
  lemma RowIsApproved(first: TrustRow, events: seq<Event>, c: Call)
    requires Window(first, events) && LastStarted(events) == Some(c) && Event.Settle(c, false) !in events
    ensures ApprovedBy(Exec(Quiet(first), events).row, c)
  {
    RowIsTheOutcome(first, events);
    if UpToSettled(events, c).Some? {
      var settled := UpToSettled(events, c).value;
      assert settled[|settled| - 1] in events;
    }
  }

  /** The row to go back to is the one the call delivered most recently wrote, or the one before the window. */
  lemma BaselineIsApproved(first: TrustRow, events: seq<Event>)
    requires Window(first, events) && InFlight(events) != {}
    ensures var desk := Exec(Quiet(first), events);
            && desk.inflight.Some? && desk.inflight.value.count == |InFlight(events)|
            && match LastDeliveredCall(events)
               case None => desk.inflight.value.baseline == first
               case Some(d) => ApprovedBy(desk.inflight.value.baseline, d)
  {
    RowIsTheOutcome(first, events);
    LastDeliveredIs(first, events);
  }

  /** When the last-started call failed, the row is the one of the call delivered last before that failure, or the
      one before the window, up to the status of an expired request. */
  lemma FailureRestores(first: TrustRow, events: seq<Event>, last: Call)
    requires Window(first, events) && LastStarted(events) == Some(last) && Event.Settle(last, false) in events
    ensures UpToSettled(events, last).Some?
    ensures var row := Exec(Quiet(first), events).row;
            match LastDeliveredCall(UpToSettled(events, last).value)
            case None => row == first || (row == first.(pairingStatus := Authorized) && Expire in events)
            case Some(d) => ApprovedBy(row, d)
  {
    RowIsTheOutcome(first, events);
    SettledOnce(first, events, last, false);
    var settled := UpToSettled(events, last).value;
    PrefixIsAWindow(first, events, |settled|);
    LastDeliveredIs(first, settled);
  }

  // ----- When a delivered secret is in the row -----

  /** The delivered call that settled most recently. */
  function LastDeliveredCall(events: seq<Event>): Option<Call> {
    if events == [] then None
    else match events[|events| - 1]
      case Settle(c, true) => Some(c)
      case _ => LastDeliveredCall(events[..|events| - 1])
  }

  lemma {:induction false} LastDeliveredIs(first: TrustRow, events: seq<Event>)
    requires Window(first, events)
    ensures match LastDeliveredCall(events)
            case None => LastDelivered(first, events) == first
            case Some(c) => LastDelivered(first, events) == Written(c) && Started(events, c)
  {
    if events != [] {
      var before, e := events[..|events| - 1], events[|events| - 1];
      if e.Settle? && e.delivered {
        WaitingCallsStarted(first, before, e.call);
      } else {
        LastDeliveredIs(first, before);
      }
    }
  }

  /** A call settles once. */
  lemma {:induction false} SettledOnce(first: TrustRow, events: seq<Event>, c: Call, delivered: bool)
    requires Window(first, events) && Event.Settle(c, delivered) in events
    ensures Started(events, c)
    ensures var settled := UpToSettled(events, c);
            settled.Some? && settled.value[|settled.value| - 1] == Event.Settle(c, delivered)
  {
    var before, e := events[..|events| - 1], events[|events| - 1];
    if Event.Settle(c, delivered) in before {
      SettledOnce(first, before, c, delivered);
      SettledCallsStarted(first, before, c);
    } else {
      WaitingCallsStarted(first, before, c);
    }
  }

  /** When the last-started call failed, the secret is the one of the call delivered last before that. */
  lemma FailureLeavesSecret(first: TrustRow, events: seq<Event>, last: Call, c: Call)
    requires Window(first, events) && Started(events, c)
    requires LastStarted(events) == Some(last) && Event.Settle(last, false) in events
    ensures Outcome(first, events).secret == Some(c.secret) <==>
              UpToSettled(events, last).Some? && LastDeliveredCall(UpToSettled(events, last).value) == Some(c)
  {
    SettledOnce(first, events, last, false);
    var settled := UpToSettled(events, last).value;
    PrefixIsAWindow(first, events, |settled|);
    LastDeliveredIs(first, settled);
    SecretsAreUnique(first, events, c, c);
    if LastDeliveredCall(settled).Some? {
      var d := LastDeliveredCall(settled).value;
      assert Started(events, d);
      if d.secret == c.secret { SecretsAreUnique(first, events, c, d); }
    }
  }

  /** Exactly when a call that was delivered has its secret in the row once nothing waits: it was the last one
      started, or the last one started failed and this is the call that was delivered last before that failure. */
  lemma DeliveredSecretIff(first: TrustRow, events: seq<Event>, c: Call)
    requires Window(first, events) && InFlight(events) == {} && Event.Settle(c, true) in events
    ensures var last := LastStarted(events);
            Exec(Quiet(first), events).row.secret == Some(c.secret) <==>
              || last == Some(c)
              || (last.Some? && Event.Settle(last.value, false) in events && UpToSettled(events, last.value).Some?
                  && LastDeliveredCall(UpToSettled(events, last.value).value) == Some(c))
  {
    RowIsTheOutcome(first, events);
    WindowsOpenWithAStart(first, events);
    SettledOnce(first, events, c, true);
    var last := LastStarted(events).value;
    NotWaitingMeansSettled(first, events, last);
    var settled := UpToSettled(events, last).value;
    var ending := settled[|settled| - 1];
    assert ending in events && ending == Event.Settle(last, ending.delivered);
    SettledOnce(first, events, last, ending.delivered);
    if ending.delivered {
      if Event.Settle(last, false) in events { SettledOnce(first, events, last, false); }
      if last.secret == c.secret { SecretsAreUnique(first, events, last, c); }
    } else {
      if last == c { SettledOnce(first, events, last, true); }
      FailureLeavesSecret(first, events, last, c);
    }
  }

  /** What the protocol does not promise: an approval that is delivered after a later one failed is reported as a
      success, yet its secret is not in the row. */
  lemma DeliveredSecretMayBeMissing(first: TrustRow, a: Call, b: Call)
    requires a.secret != b.secret && Some(a.secret) != first.secret && Some(b.secret) != first.secret
    ensures var events := [] + [Start(a)] + [Start(b)] + [Event.Settle(b, false)] + [Event.Settle(a, true)];
            Window(first, events) && Exec(Quiet(first), events) == Quiet(first)
  {
    hide Window, InFlight, Exec;
    WindowsStartEmpty(first);
    OneMoreEvent(first, [], Start(a));
    OneMoreEvent(first, [] + [Start(a)], Start(b));
    OneMoreEvent(first, [] + [Start(a)] + [Start(b)], Event.Settle(b, false));
    OneMoreEvent(first, [] + [Start(a)] + [Start(b)] + [Event.Settle(b, false)], Event.Settle(a, true));
  }

  lemma WindowsStartEmpty(first: TrustRow)
    ensures Window(first, []) && InFlight([]) == {} && Exec(Quiet(first), []) == Quiet(first)
  {
  }

  // ----- Any number of windows, one after the other -----

  function Flatten(windows: seq<seq<Event>>): seq<Event> {
    if windows == [] then [] else Flatten(windows[..|windows| - 1]) + windows[|windows| - 1]
  }

  function RowAfter(first: TrustRow, windows: seq<seq<Event>>): TrustRow {
    if windows == [] then first
    else Outcome(RowAfter(first, windows[..|windows| - 1]), windows[|windows| - 1])
  }

  /** Each window opens on the row the one before it left, and ends with nothing waiting. */
  ghost predicate ClosedWindows(first: TrustRow, windows: seq<seq<Event>>) {
    forall i :: 0 <= i < |windows| ==>
      Window(RowAfter(first, windows[..i]), windows[i]) && InFlight(windows[i]) == {}
  }

  lemma {:induction false} ExecConcat(d: Desk, a: seq<Event>, b: seq<Event>)
    ensures Exec(d, a + b) == Exec(Exec(d, a), b)
  {
    if b == [] {
      assert a + b == a;
    } else {
      var n := |b| - 1;
      ExecConcat(d, a, b[..n]);
      assert (a + b)[..|a + b| - 1] == a + b[..n];
    }
  }

  /** No baseline leaks from one window into the next. */
  lemma {:induction false} WindowsAreIndependent(first: TrustRow, windows: seq<seq<Event>>)
    requires ClosedWindows(first, windows)
    ensures Exec(Quiet(first), Flatten(windows)) == Quiet(RowAfter(first, windows))
  {
    if windows != [] {
      var n := |windows| - 1;
      forall i | 0 <= i < n
        ensures windows[..n][..i] == windows[..i]
      {
      }
      WindowsAreIndependent(first, windows[..n]);
      ExecConcat(Quiet(first), Flatten(windows[..n]), windows[n]);
      NoUndeliveredWriteSurvives(RowAfter(first, windows[..n]), windows[n]);
    }
  }
}
