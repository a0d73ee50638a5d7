// The settlement protocol: transition handlers split at every await, over a shared booking table, the
// settlement log and the contract. Any number of handlers interleave; none takes a row lock.
module Settlement {
  import opened Wrappers
  import opened EscrowMath
  import opened Escrow
  import opened Ledger

  const MICROS: nat := 1_000_000

  type WorkerId = string
  type UserId = string

  datatype BookingStatus = Pending | Active | Completed | Cancelled

  predicate ValidTransition(from: BookingStatus, to: BookingStatus) {
    match from
    case Pending => to.Active? || to.Cancelled?
    case Active => to.Completed? || to.Cancelled?
    case Completed => false
    case Cancelled => false
  }

  predicate Terminal(s: BookingStatus) {
    s.Completed? || s.Cancelled?
  }

  // A booking row joined with the parts of its offering, consumer and supplier that settlement reads.
  // Times are in microseconds of the server clock.
  datatype BookingRow = BookingRow(
    status: BookingStatus,
    startedAt: Option<int>,
    endedAt: Option<int>,
    consumerUser: UserId,
    supplierUser: UserId,
    consumerWallet: Option<Address>,
    payoutWallet: Option<Address>,
    workerId: WorkerId,
    offeringId: string)

  datatype Settings = Settings(
    chainEnabled: bool,
    escrowConfigured: bool,
    settler: Option<Address>, // the account of the configured settler key
    maxBookingHours: nat)

  function MaxSecs(s: Settings): nat {
    s.maxBookingHours * 3600
  }

  predicate Applicable(s: Settings, b: BookingRow) {
    s.chainEnabled && s.escrowConfigured && s.settler.Some? && b.consumerWallet.Some? && b.payoutWallet.Some?
  }

  // Whole seconds between start and end; zero when either is missing or the clock ran backwards.
  function UsageSeconds(b: BookingRow): nat {
    if b.startedAt.None? || b.endedAt.None? || b.endedAt.value < b.startedAt.value then 0
    else (b.endedAt.value - b.startedAt.value) / MICROS
  }

  datatype Message = BookingActivated(bookingId: BookingId, offeringId: string) | BookingCancelled(bookingId: BookingId)

  // What a handler does next; between two phases lies an await, where other handlers run.
  datatype Phase =
    | Locking                        // call openBooking
    | RecordingOpen(tx: SettlementTx)  // commit the row of that call
    | Assigning                      // set the status and read the clock
    | Committing(now: int)           // commit the booking row
    | Refreshing                     // read it back
    | Closing(usage: nat)            // call settleBooking or cancelBooking
    | RecordingClose(tx: SettlementTx) // commit the row of that call
    | Publishing                     // tell the worker
    | Finished(accepted: bool)

  datatype Handler = Handler(bookingId: BookingId, to: BookingStatus, prev: BookingStatus, rate: nat, phase: Phase)

  predicate Recording(p: Phase) {
    p.RecordingOpen? || p.RecordingClose?
  }

  // openedBy and closedBy record whose transaction opened and closed each on-chain booking.
  datatype System = System(
    settings: Settings,
    chain: World,
    clock: int,
    bookings: map<BookingId, BookingRow>,
    txs: Table,
    handlers: map<TxId, Handler>,
    published: set<(WorkerId, Message)>,
    openedBy: map<BookingId, TxId>,
    closedBy: map<BookingId, TxId>)

  datatype Action =
    | Create(id: BookingId, consumerUser: UserId, supplierUser: UserId, consumerWallet: Option<Address>,
             payoutWallet: Option<Address>, workerId: WorkerId, offeringId: string, offeringActive: bool,
             workerMatches: bool)
    | Request(h: TxId, id: BookingId, to: BookingStatus, rate: nat)
    | Advance(h: TxId, rpcUp: bool) // one step of a handler; a chain call needs the RPC node
    | Chain(l: Label)               // anyone else's transaction
    | ServerTick(time: int)

  // ------------------------------------------------------------ the chain client

  datatype ChainResult = ChainResult(world: World, event: Event)

  // An honest client: it returns the decoded event exactly when the transaction took effect, and raises
  // otherwise, whether the contract reverted or the node could not be reached.
  function Send(w: World, op: PlainOp, rpcUp: bool): Option<ChainResult> {
    if !rpcUp || w.call.Some? then None
    else
      match Step(w, Plain(op))
      case Ok(w') => if w'.core.log.Emit? then Some(ChainResult(w', w'.core.log.event)) else None
      case Err(_) => None
  }

  // Arguments outside uint96 and uint32 fail to encode.
  function SendOpen(settings: Settings, chain: World, id: BookingId, b: BookingRow, rate: nat, rpcUp: bool)
    : Option<ChainResult>
    requires Applicable(settings, b)
  {
    var maxSecs := MaxSecs(settings);
    if rate >= UINT96_LIMIT || maxSecs >= UINT32_LIMIT then None
    else
      Send(chain, PlainOp.Open(settings.settler.value, id, b.consumerWallet.value, b.payoutWallet.value, rate, maxSecs),
           rpcUp)
  }

  function SendClose(settings: Settings, chain: World, id: BookingId, usage: nat, cancelled: bool, rpcUp: bool)
    : Option<ChainResult>
    requires settings.settler.Some?
  {
    var settler := settings.settler.value;
    Send(chain, if cancelled then Cancel(settler, id, usage) else Settle(settler, id, usage), rpcUp)
  }

  // ------------------------------------------------------------ handler steps

  function To(s: System, h: TxId, p: Phase): System
    requires h in s.handlers
  {
    s.(handlers := s.handlers[h := s.handlers[h].(phase := p)])
  }

  // Who may see and move a booking.
  predicate IsParty(b: BookingRow, user: UserId) {
    user == b.consumerUser || user == b.supplierUser
  }

  // The transition check and the reads that follow it.
  function Accept(s: System, h: TxId, id: BookingId, to: BookingStatus, rate: nat): Option<System> {
    if h in s.handlers || h in s.txs || id !in s.bookings then None
    else if !ValidTransition(s.bookings[id].status, to) then None
    else
      var first := if to.Active? && Applicable(s.settings, s.bookings[id]) then Locking else Assigning;
      Some(s.(handlers := s.handlers[h := Handler(id, to, s.bookings[id].status, rate, first)]))
  }

  predicate Known(s: System, h: TxId) {
    h in s.handlers && s.handlers[h].bookingId in s.bookings
  }

  // The row of an attempt, failed until the chain confirms it.
  function Attempt(me: Handler, b: BookingRow, kind: TxKind, usage: Option<nat>): SettlementTx {
    SettlementTx(me.bookingId, kind, b.consumerWallet, b.payoutWallet, me.rate, false, usage, None, None)
  }

  // settle_on_activate once the chain has answered.
  function Lock(s: System, h: TxId, answer: Option<ChainResult>): System
    requires Known(s, h)
  {
    var id := s.handlers[h].bookingId;
    var tx := Attempt(s.handlers[h], s.bookings[id], OpenTx, None);
    match answer
    case None => To(s, h, RecordingOpen(tx))
    case Some(r) =>
      var amount := if r.event.BookingOpened? then r.event.lockedAmount else 0;
      To(s.(chain := r.world, openedBy := s.openedBy[id := h]), h,
         RecordingOpen(tx.(confirmed := true, amountUsdc := Some(amount))))
  }

  // settle_on_close once the chain has answered.
  function Release(s: System, h: TxId, usage: nat, answer: Option<ChainResult>): System
    requires Known(s, h)
  {
    var id := s.handlers[h].bookingId;
    var kind := if s.handlers[h].to.Cancelled? then CancelTx else SettleTx;
    var tx := Attempt(s.handlers[h], s.bookings[id], kind, Some(usage));
    match answer
    case None => To(s, h, RecordingClose(tx))
    case Some(r) =>
      var cost := if r.event.BookingSettled? then r.event.cost else 0;
      var commission := if r.event.BookingSettled? then r.event.commission else 0;
      To(s.(chain := r.world, closedBy := s.closedBy[id := h]), h,
         RecordingClose(tx.(confirmed := true, amountUsdc := Some(cost), commissionUsdc := Some(commission))))
  }

  // The row a handler commits: status, and the start or the end stamp.
  function Updated(b: BookingRow, to: BookingStatus, now: int): BookingRow {
    b.(status := to,
       startedAt := if to.Active? then Some(now) else b.startedAt,
       endedAt := if Terminal(to) then Some(now) else b.endedAt)
  }

  predicate ClosesActive(me: Handler) {
    me.prev.Active? && Terminal(me.to)
  }

  function Announcement(me: Handler, b: BookingRow): set<(WorkerId, Message)> {
    if me.to.Active? then {(b.workerId, BookingActivated(me.bookingId, b.offeringId))}
    else if ClosesActive(me) then {(b.workerId, BookingCancelled(me.bookingId))}
    else {}
  }

  // db.commit of a settlement row.
  function CommitRow(s: System, h: TxId): System
    requires h in s.handlers && Recording(s.handlers[h].phase)
  {
    var p := s.handlers[h].phase;
    To(s.(txs := s.txs[h := p.tx]), h,
       if p.RecordingClose? then Publishing else if p.tx.confirmed then Assigning else Finished(false))
  }

  // db.commit of the booking row.
  function CommitStatus(s: System, h: TxId, now: int): System
    requires Known(s, h)
  {
    var me := s.handlers[h];
    To(s.(bookings := s.bookings[me.bookingId := Updated(s.bookings[me.bookingId], me.to, now)]), h, Refreshing)
  }

  // db.refresh, and the decision whether there is a close to charge.
  function Refresh(s: System, h: TxId): System
    requires Known(s, h)
  {
    var b := s.bookings[s.handlers[h].bookingId];
    To(s, h, if ClosesActive(s.handlers[h]) && Applicable(s.settings, b) then Closing(UsageSeconds(b)) else Publishing)
  }

  function Publish(s: System, h: TxId): System
    requires Known(s, h)
  {
    var me := s.handlers[h];
    To(s.(published := s.published + Announcement(me, s.bookings[me.bookingId])), h, Finished(true))
  }

  // One step of one handler, from an await to the next.
  function Advanced(s: System, h: TxId, rpcUp: bool): Option<System> {
    if !Known(s, h) then None
    else
      var me := s.handlers[h];
      var b := s.bookings[me.bookingId];
      match me.phase
      case Locking =>
        if !Applicable(s.settings, b) then None
        else Some(Lock(s, h, SendOpen(s.settings, s.chain, me.bookingId, b, me.rate, rpcUp)))
      case RecordingOpen(_) => Some(CommitRow(s, h))
      case Assigning => Some(To(s, h, Committing(s.clock)))
      case Committing(now) => Some(CommitStatus(s, h, now))
      case Refreshing => Some(Refresh(s, h))
      case Closing(usage) =>
        if s.settings.settler.None? then None
        else Some(Release(s, h, usage, SendClose(s.settings, s.chain, me.bookingId, usage, me.to.Cancelled?, rpcUp)))
      case RecordingClose(_) => Some(CommitRow(s, h))
      case Publishing => Some(Publish(s, h))
      case Finished(_) => None
  }

  // create_booking.
  function Created(s: System, a: Action): Option<System>
    requires a.Create?
  {
    if !a.offeringActive || !a.workerMatches || a.id in s.bookings then None
    else
      var b := BookingRow(Pending, None, None, a.consumerUser, a.supplierUser, a.consumerWallet, a.payoutWallet,
                          a.workerId, a.offeringId);
      Some(s.(bookings := s.bookings[a.id := b]))
  }

  // Everybody else's transactions: only the backend holds the settler role.
  predicate Foreign(w: World, l: Label) {
    l.Plain? && (l.plain.Open? || l.plain.Settle? || l.plain.Cancel?) ==> l.plain.sender !in w.core.settlers
  }

  function Perform(s: System, a: Action): Option<System> {
    match a
    case Create(_, _, _, _, _, _, _, _, _) => Created(s, a)
    case Request(h, id, to, rate) => Accept(s, h, id, to, rate)
    case Advance(h, rpcUp) => Advanced(s, h, rpcUp)
    case Chain(l) => if Foreign(s.chain, l) then Some(s.(chain := Next(s.chain, l))) else None
    case ServerTick(time) => if time < s.clock then None else Some(s.(clock := time))
  }

  // A request that is refused changes nothing.
  function After(s: System, a: Action): System {
    match Perform(s, a)
    case Some(s') => s'
    case None => s
  }

  function Execute(s: System, actions: seq<Action>): System
    decreases |actions|
  {
    if actions == [] then s else Execute(After(s, actions[0]), actions[1..])
  }

  ghost predicate Start(s: System) {
    && (exists d :: Genesis(d, s.chain))
    && s.bookings == map[] && s.txs == map[] && s.handlers == map[] && s.published == {}
    && s.openedBy == map[] && s.closedBy == map[]
  }
}
