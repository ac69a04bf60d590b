/**
 * The return of one order, from the request to the refund (orderController.js,
 * orderWorkflowController.js, orderReturnService.js, deliveryOtpService.js,
 * orderWorkflowService.js). Every handler that checks the order and writes it later is taken
 * apart into its database calls, and so are the inspection with its refund and the job that
 * credits the rider's commission after the hand-over was answered. Money is in paise.
 */
module ReturnModel {
  import opened Wrappers

  datatype Status =
    | NoReturn | Requested | Approved | Rejected | PickupAssigned | InTransit | DropPending
    | Returned | QcPassed | QcFailed | Refunded

  /** The references under which money rows are stored; they are unique. */
  datatype Ref = RefWallet | RefSell | RetDel | RetDrop

  /** What the commission job has seen of the order. */
  datatype Job = Job(commission: nat, alreadyPaid: bool)

  /** The latest one-time code of a kind, and whether it is not consumed. */
  datatype Code = Code(serial: nat, live: bool)

  /** `customer` and `seller`: whether the order names one; `known`: whether the customer still exists. */
  datatype Parties = Parties(customer: bool, known: bool, seller: bool)

  /**
   * The stored order with its codes, and the money moved for it. `unbooked` jobs have credited
   * the rider and stored no row; `unflagged` ones have stored the row and not set the flag.
   */
  datatype Core = Core(
    parties: Parties,
    status: Status,
    rider: Option<nat>,
    items: nat,
    approvedAmount: nat,
    commission: nat,
    flagPaid: bool,
    pickup: Code,
    drop: Code,
    rows: map<Ref, int>,
    credits: seq<nat>,
    paid: seq<nat>,
    jobs: seq<Job>,
    unbooked: seq<Job>,
    unflagged: nat
  )

  /** Where an inspection stands; each stage ends with one database call. */
  datatype Stage = Checked | Crediting | WalletRow | SellerRow | Paying | RiderRow | Closing | Over

  /** An inspection works on the order as it read it. */
  datatype Inspection = Inspection(pass: bool, amount: nat, pays: bool, commission: nat, stage: Stage)

  /** The requests that check the order they read; `ok` says whether the code entered is right. */
  datatype Request =
    | Create(items: nat)
    | Approve(commission: nat)
    | Refuse
    | Assign(rider: Option<nat>)
    | Accept(user: nat)
    | GiveUp(user: nat)
    | Update(to: Status)
    | PickupOtp
    | VerifyPickup(ok: bool)
    | DropOtp
    | SellerLooks(expired: bool)
    | VerifyDrop(ok: bool)

  /** Loaded: the order is read and passed its check. Then, for requests about codes: the code looked at, and used or made. */
  datatype Progress = Loaded | Coded | Spent | Ended

  /** A request in flight, with the order as it read it and the code it has passed with. */
  datatype Handling = Handling(request: Request, read: Core, code: nat, at: Progress)

  datatype World = World(core: Core, inspections: seq<Inspection>, handlings: seq<Handling>)

  datatype Event =
    | Timeout
    | Ask(request: Request)
    | Proceed(h: nat)
    | RunJob
    | BookJob
    | FlagJob
    | QcRead(pass: bool)
    | QcStep(e: nat, sellerCanPay: bool)

  // ---------------------------------------------------------------------------
  // The refund
  // ---------------------------------------------------------------------------

  function Amount(c: Core): nat {
    if c.approvedAmount != 0 then c.approvedAmount else c.items
  }

  predicate RefundsCustomer(c: Core) {
    c.parties.customer && Amount(c) > 0
  }

  predicate ChargesSeller(c: Core) {
    c.parties.seller && Amount(c) > 0
  }

  predicate PaysRider(c: Core) {
    c.rider.Some? && c.commission > 0 && !c.flagPaid
  }

  /** A refund leaves the hand-over and its commission job alone. */
  predicate SameHandOver(c: Core, u: Core) {
    && u.parties == c.parties && u.flagPaid == c.flagPaid
    && u.jobs == c.jobs && u.unbooked == c.unbooked && u.unflagged == c.unflagged
    && (RetDrop in u.rows <==> RetDrop in c.rows)
  }

  /** Whether a row or the seller's balance makes the transaction abort. */
  predicate Aborts(c: Core, sellerCanPay: bool) {
    || (RefundsCustomer(c) && RefWallet in c.rows)
    || (ChargesSeller(c) && (RefSell in c.rows || !sellerCanPay))
    || (PaysRider(c) && RetDel in c.rows)
  }

  predicate Commits(c: Core, sellerCanPay: bool) {
    c.status == QcPassed && !Aborts(c, sellerCanPay)
  }

  /** OrderReturnService.completeReturnAndRefund: reads the order again, and does all of it or nothing. */
  function AtomicRefund(c: Core, sellerCanPay: bool): (u: Core)
    ensures SameHandOver(c, u)
  {
    if !Commits(c, sellerCanPay) then c
    else
      c.(rows := Booked(c),
         credits := if RefundsCustomer(c) then c.credits + [Amount(c)] else c.credits,
         paid := if PaysRider(c) then c.paid + [c.commission] else c.paid,
         status := Refunded)
  }

  /** The rows with those of a whole refund. */
  function Booked(c: Core): (rows: map<Ref, int>)
    ensures RetDrop in rows <==> RetDrop in c.rows
  {
    var rows1 := if RefundsCustomer(c) then c.rows[RefWallet := Amount(c)] else c.rows;
    var rows2 := if ChargesSeller(c) then rows1[RefSell := -(Amount(c) as int)] else rows1;
    if PaysRider(c) then rows2[RetDel := c.commission] else rows2
  }

  /** Store a money row and go on, or stop at a reference already used. */
  function Row(c: Core, q: Inspection, ref: Ref, amount: int, next: Stage): (r: (Core, Inspection))
    ensures ref != RetDrop ==> SameHandOver(c, r.0)
  {
    if ref in c.rows then (c, q.(stage := Over)) else (c.(rows := c.rows[ref := amount]), q.(stage := next))
  }

  /** The next call of completeReturnAndRefundLegacy, on the order as the inspection read it. */
  function LegacyStep(c: Core, q: Inspection): (r: (Core, Inspection))
    ensures SameHandOver(c, r.0)
  {
    match q.stage
    case Crediting =>
      if c.parties.customer && q.amount > 0 && c.parties.known
      then (c.(credits := c.credits + [q.amount]), q.(stage := WalletRow))
      else (c, q.(stage := SellerRow))
    case WalletRow => Row(c, q, RefWallet, q.amount, SellerRow)
    case SellerRow =>
      if c.parties.seller && q.amount > 0 then Row(c, q, RefSell, -(q.amount as int), Paying) else (c, q.(stage := Paying))
    case Paying =>
      if q.pays then (c.(paid := c.paid + [q.commission]), q.(stage := RiderRow)) else (c, q.(stage := Closing))
    case RiderRow => Row(c, q, RetDel, q.commission, Closing)
    case Closing => (c.(status := Refunded), q.(stage := Over))
    case _ => (c, q)
  }

  /** The next call of updateReturnQcStatus: save the verdict, then refund by the body in use. */
  function InspectStep(c: Core, q: Inspection, sellerCanPay: bool, atomic: bool): (r: (Core, Inspection))
    ensures SameHandOver(c, r.0)
  {
    if q.stage == Checked then
      (c.(status := if q.pass then QcPassed else QcFailed), q.(stage := if q.pass then Crediting else Over))
    else if atomic && q.stage == Crediting then (AtomicRefund(c, sellerCanPay), q.(stage := Over))
    else LegacyStep(c, q)
  }

  // ---------------------------------------------------------------------------
  // Requests that check first and write later
  // ---------------------------------------------------------------------------

  function Rank(s: Status): nat {
    match s case PickupAssigned => 1 case InTransit => 2 case Returned => 3 case _ => 0
  }

  /** The check on the order as read. */
  predicate Allowed(c: Core, r: Request) {
    match r
    case Create(_) => true
    case Approve(_) => c.status == Requested
    case Refuse => c.status == Requested
    case Assign(_) => c.status == Requested || c.status == Approved
    case Accept(_) => c.rider.None?
    case GiveUp(user) => c.rider == Some(user) && c.status == PickupAssigned
    case Update(to) => Rank(to) > 0 && Rank(to) >= Rank(c.status)
    case PickupOtp => c.status == PickupAssigned
    case VerifyPickup(_) => true
    case DropOtp => c.rider.Some? && (c.status == InTransit || c.status == DropPending)
    case SellerLooks(expired) => (c.status == InTransit || c.status == DropPending) && (expired || !c.drop.live)
    case VerifyDrop(_) => c.rider.Some?
  }

  /** The status a request writes, if it writes one. */
  function Target(r: Request): Option<Status> {
    match r
    case Create(_) => Some(Requested)
    case Approve(_) => Some(Approved)
    case Refuse => Some(Rejected)
    case Assign(_) => Some(PickupAssigned)
    case Accept(_) => Some(PickupAssigned)
    case GiveUp(_) => Some(Approved)
    case Update(to) => if Rank(to) > 0 then Some(to) else None
    case VerifyPickup(_) => Some(InTransit)
    case DropOtp => Some(DropPending)
    case VerifyDrop(_) => Some(Returned)
    case PickupOtp => None
    case SellerLooks(_) => None
  }

  /** A save writes a field only if the request has changed it since it read the order. */
  function Saved<T(==)>(was: T, to: T, now: T): T {
    if to == was then now else to
  }

  function NewCode(code: Code): Code {
    Code(code.serial + 1, true)
  }

  /** Consuming an older code leaves the latest one alone. */
  function Consumed(code: Code, serial: nat): Code {
    if serial == code.serial then code.(live := false) else code
  }

  /** The last call of a request: the order is written from what was read. */
  function Write(c: Core, h: Handling): Core {
    var was := h.read;
    match h.request
    case Create(items) =>
      c.(status := Saved(was.status, Requested, c.status), items := Saved(was.items, items, c.items))
    case Approve(commission) =>
      c.(status := Saved(was.status, Approved, c.status), rider := Saved(was.rider, None, c.rider),
         approvedAmount := Saved(was.approvedAmount, was.items, c.approvedAmount),
         commission := Saved(was.commission, commission, c.commission))
    case Refuse => c.(status := Saved(was.status, Rejected, c.status))
    case Assign(rider) => c.(status := Saved(was.status, PickupAssigned, c.status), rider := Saved(was.rider, rider, c.rider))
    case Accept(user) => c.(status := Saved(was.status, PickupAssigned, c.status), rider := Saved(was.rider, Some(user), c.rider))
    case GiveUp(user) => c.(status := Saved(was.status, Approved, c.status), rider := Saved(was.rider, None, c.rider))
    case Update(to) => if Rank(to) > 0 then c.(status := Saved(was.status, to, c.status)) else c
    case VerifyPickup(_) => c.(status := Saved(was.status, InTransit, c.status))
    case VerifyDrop(_) =>
      c.(status := Saved(was.status, Returned, c.status), jobs := c.jobs + [Job(was.commission, was.flagPaid)])
    case DropOtp => c.(status := DropPending)     // updateOne, without looking
    case PickupOtp => c.(pickup := NewCode(c.pickup))
    case SellerLooks(_) => c.(drop := NewCode(c.drop))
  }

  /** The calls between the check of a request and its last one. */
  predicate LastCall(h: Handling) {
    match h.request
    case VerifyPickup(_) => h.at == Spent
    case VerifyDrop(_) => h.at == Spent
    case DropOtp => h.at == Spent
    case SellerLooks(_) => h.at == Coded
    case _ => h.at == Loaded
  }

  /** The code a verification passes with, if it is right and not consumed. */
  predicate Passes(c: Core, h: Handling) {
    match h.request
    case VerifyPickup(ok) => ok && c.pickup.live
    case VerifyDrop(ok) => ok && c.drop.live
    case _ => false
  }

  function CodeOf(c: Core, r: Request): nat {
    if r.VerifyPickup? then c.pickup.serial else c.drop.serial
  }

  /** The next call of a request. */
  function Next(c: Core, h: Handling): (r: (Core, Handling)) {
    if h.at == Ended then (c, h)
    else if LastCall(h) then (Write(c, h), h.(at := Ended))
    else if h.at == Loaded then
      if h.request.VerifyPickup? || h.request.VerifyDrop?
      then (c, if Passes(c, h) then h.(code := CodeOf(c, h.request), at := Coded) else h.(at := Ended))
      else (c, h.(at := if c.status == InTransit || c.status == DropPending then Coded else Ended))
    else if h.at == Coded then
      (match h.request
       case VerifyPickup(_) => c.(pickup := Consumed(c.pickup, h.code))
       case VerifyDrop(_) => c.(drop := Consumed(c.drop, h.code))
       case DropOtp => c.(drop := NewCode(c.drop))
       case _ => c,
       h.(at := Spent))
    else (c, h.(at := Ended))
  }

  // ---------------------------------------------------------------------------
  // The steps
  // ---------------------------------------------------------------------------

  predicate StillPays(job: Job) {
    job.commission > 0 && !job.alreadyPaid
  }

  /** What is one call on its own: the timeout job, and the calls of the commission job. */
  function Handle(c: Core, ev: Event): (u: Core)
    ensures u.parties == c.parties && u.credits == c.credits
    ensures !ev.BookJob? ==> u.rows == c.rows
  {
    match ev
    case Timeout => if c.status != PickupAssigned || c.rider.Some? then c else c.(status := Approved)
    case RunJob =>
      if c.jobs == [] then c
      else if !StillPays(c.jobs[0]) then c.(jobs := c.jobs[1..])
      else c.(jobs := c.jobs[1..], unbooked := c.unbooked + [c.jobs[0]], paid := c.paid + [c.jobs[0].commission])
    case BookJob =>
      if c.unbooked == [] then c
      else
        var job := c.unbooked[0];
        var u := c.(unbooked := c.unbooked[1..]);
        if RetDrop in c.rows then u else u.(rows := c.rows[RetDrop := job.commission], unflagged := c.unflagged + 1)
    case FlagJob => if c.unflagged == 0 then c else c.(unflagged := c.unflagged - 1, flagPaid := true)
    case _ => c
  }

  /** `atomic` is the setting that runs the refund in a transaction. */
  function Apply(w: World, ev: Event, atomic: bool): World {
    match ev
    case Ask(request) =>
      if !Allowed(w.core, request) then w
      else w.(handlings := w.handlings + [Handling(request, w.core, 0, Loaded)])
    case Proceed(h) =>
      if h >= |w.handlings| then w
      else
        var r := Next(w.core, w.handlings[h]);
        w.(core := r.0, handlings := w.handlings[h := r.1])
    case QcRead(pass) =>
      if w.core.status != Returned then w
      else w.(inspections := w.inspections + [Inspection(pass, Amount(w.core), PaysRider(w.core), w.core.commission, Checked)])
    case QcStep(e, sellerCanPay) =>
      if e >= |w.inspections| then w
      else
        var r := InspectStep(w.core, w.inspections[e], sellerCanPay, atomic);
        w.(core := r.0, inspections := w.inspections[e := r.1])
    case _ => w.(core := Handle(w.core, ev))
  }

  function Run(w: World, evs: seq<Event>, atomic: bool): World
    decreases |evs|
  {
    if evs == [] then w else Run(Apply(w, evs[0], atomic), evs[1..], atomic)
  }

  /** An order before its first return. */
  predicate Untouched(w: World) {
    && w.inspections == [] && w.handlings == []
    && w.core.credits == [] && w.core.paid == [] && w.core.rows == map[]
    && w.core.jobs == [] && w.core.unbooked == [] && w.core.unflagged == 0
    && w.core.status == NoReturn && !w.core.flagPaid && !w.core.pickup.live && !w.core.drop.live
  }

  lemma {:induction false} RunConcat(w: World, a: seq<Event>, b: seq<Event>, atomic: bool)
    ensures Run(w, a + b, atomic) == Run(Run(w, a, atomic), b, atomic)
    decreases |a|
  {
    hide Apply;
    if a == [] {
      assert a + b == b;
    } else {
      RunConcat(Apply(w, a[0], atomic), a[1..], b, atomic);
      assert (a + b)[1..] == a[1..] + b;
    }
  }

  lemma RunOne(w: World, ev: Event, atomic: bool)
    ensures Run(w, [ev], atomic) == Apply(w, ev, atomic)
  {
    hide Apply;
    assert [ev][1..] == [];
    assert Run(w, [ev], atomic) == Run(Apply(w, ev, atomic), [], atomic);
  }

  lemma RunTwo(w: World, a: Event, b: Event, atomic: bool)
    ensures Run(w, [a, b], atomic) == Apply(Apply(w, a, atomic), b, atomic)
  {
    hide Apply;
    assert [a, b][1..] == [b] && [b][1..] == [];
    assert Run(Apply(w, a, atomic), [b], atomic) == Run(Apply(Apply(w, a, atomic), b, atomic), [], atomic);
  }

  lemma RunFour(w: World, a: Event, b: Event, c: Event, d: Event, atomic: bool)
    ensures Run(w, [a, b, c, d], atomic) == Apply(Apply(Apply(Apply(w, a, atomic), b, atomic), c, atomic), d, atomic)
  {
    hide Apply;
    RunTwo(w, a, b, atomic);
    RunTwo(Run(w, [a, b], atomic), c, d, atomic);
    RunConcat(w, [a, b], [c, d], atomic);
    assert [a, b] + [c, d] == [a, b, c, d];
  }

  lemma RunThen(w: World, a: seq<Event>, b: seq<Event>, ev: Event, atomic: bool)
    ensures Run(w, a + b + [ev], atomic) == Apply(Run(Run(w, a, atomic), b, atomic), ev, atomic)
  {
    hide Apply;
    RunConcat(w, a, b, atomic);
    RunConcat(w, a + b, [ev], atomic);
    RunOne(Run(w, a + b, atomic), ev, atomic);
  }
}
