/**
 Buy requests and the money they reserve (buy-requests.service.ts, buy-request-matching.service.ts).

 Fulfilling, cancelling and expiring read the request, then claim it with a conditional update on what
 they read; any other call may commit in between. `orders` is the part of a hold account that belongs
 to purchases.
 */
module BuyRequests {
  import opened Common

  type UserId = nat
  type RequestId = nat

  const MAX_BUY_REQUEST_QUANTITY: int := 99

  datatype Status = Open | Fulfilled | Canceled | Expired

  datatype Request = Request(
    buyer: UserId,
    item: string,
    maxPrice: int,
    quantity: int,
    filled: int,
    reserved: int,
    status: Status)

  datatype Wallet = Wallet(available: int, held: int, orders: int)

  datatype Key =
    | ReserveKey(id: RequestId)
    | FulfillKey(id: RequestId, filled: int)
    | CancelKey(id: RequestId)
    | ExpireKey(id: RequestId)

  /** `entries` records, under its idempotency key, the amount each hold operation moved. */
  datatype Tables = Tables(
    requests: seq<Request>,
    wallets: seq<Wallet>,
    entries: map<(UserId, Key), int>)

  // ----- The ledger operations; None when they throw -----

  function ReserveHold(d: Tables, u: UserId, amount: int, key: Key): Option<Tables>
    requires u < |d.wallets|
  {
    var w := d.wallets[u];
    if amount <= 0 then None
    else if (u, key) in d.entries then Some(d)
    else if w.available < amount then None
    else Some(d.(wallets := d.wallets[u := w.(available := w.available - amount, held := w.held + amount)],
                 entries := d.entries[(u, key) := amount]))
  }

  function ReleaseHold(d: Tables, u: UserId, amount: int, key: Key): Option<Tables>
    requires u < |d.wallets|
  {
    var w := d.wallets[u];
    if amount <= 0 then None
    else if (u, key) in d.entries then Some(d)
    else if w.held < amount then None
    else Some(d.(wallets := d.wallets[u := w.(available := w.available + amount, held := w.held - amount)],
                 entries := d.entries[(u, key) := amount]))
  }

  // ----- The calls -----

  datatype Call =
    | Create(buyer: UserId, item: string, maxPrice: int, quantity: int)
    | Fulfill(id: RequestId, snap: Request)
    | Cancel(id: RequestId, snap: Request)
    | Expire(id: RequestId, snap: Request)

  predicate SameOpen(r: Request, buyer: UserId, item: string, maxPrice: int) {
    r.status.Open? && r.buyer == buyer && r.item == item && r.maxPrice == maxPrice
  }

  /** The checks of `create` before its transaction. */
  predicate CreateAdmitted(d: Tables, buyer: UserId, item: string, maxPrice: int, quantity: int) {
    && buyer < |d.wallets| && 1 <= quantity <= MAX_BUY_REQUEST_QUANTITY
    && forall i :: 0 <= i < |d.requests| ==> !SameOpen(d.requests[i], buyer, item, maxPrice)
  }

  function CommitCreate(d: Tables, buyer: UserId, item: string, maxPrice: int, quantity: int): Option<Tables> {
    if buyer >= |d.wallets| then None
    else
      var amount := maxPrice * quantity;
      var row := Request(buyer, item, maxPrice, quantity, 0, amount, Open);
      ReserveHold(d.(requests := d.requests + [row]), buyer, amount, ReserveKey(|d.requests|))
  }

  /** A request that a purchase at `price` may fill. */
  predicate Fillable(r: Request, buyer: UserId, item: string, price: int) {
    r.buyer == buyer && r.item == item && r.status.Open? && r.maxPrice >= price && r.filled < r.quantity
  }

  /** The request a purchase picks: fillable, with the highest price. */
  predicate Picked(rs: seq<Request>, buyer: UserId, item: string, price: int, id: RequestId) {
    && id < |rs| && Fillable(rs[id], buyer, item, price)
    && forall j :: 0 <= j < |rs| && Fillable(rs[j], buyer, item, price) ==> rs[j].maxPrice <= rs[id].maxPrice
  }

  /** The claim: is the request still open and as it was read? */
  predicate Unmoved(d: Tables, id: RequestId, snap: Request) {
    && id < |d.requests| && d.requests[id].status.Open?
    && d.requests[id].filled == snap.filled && d.requests[id].reserved == snap.reserved
  }

  /** "Buy request reserve is inconsistent". */
  predicate Inconsistent(snap: Request) {
    snap.reserved < snap.maxPrice
  }

  function CommitFulfill(d: Tables, id: RequestId, snap: Request): Option<Tables> {
    if snap.maxPrice == 0 then Some(d)
    else if Inconsistent(snap) || !Unmoved(d, id, snap) || snap.buyer >= |d.wallets| then None
    else
      var next := snap.filled + 1;
      var left := snap.reserved - snap.maxPrice;
      var status := if next >= snap.quantity then Fulfilled else Open;
      var e := d.(requests := d.requests[id := d.requests[id].(filled := next, reserved := left, status := status)]);
      if snap.maxPrice > 0 && snap.reserved > 0
      then ReleaseHold(e, snap.buyer, snap.maxPrice, FulfillKey(id, next))
      else Some(e)
  }

  /** Cancelling and expiring differ only in the final status and the key. */
  function CommitClose(d: Tables, id: RequestId, snap: Request, status: Status, key: Key): Option<Tables> {
    if !Unmoved(d, id, snap) || snap.buyer >= |d.wallets| then None
    else
      var e := d.(requests := d.requests[id := d.requests[id].(reserved := 0, status := status)]);
      if snap.reserved > 0 then ReleaseHold(e, snap.buyer, snap.reserved, key) else Some(e)
  }

  function Commit(d: Tables, call: Call): Option<Tables> {
    match call
    case Create(buyer, item, maxPrice, quantity) => CommitCreate(d, buyer, item, maxPrice, quantity)
    case Fulfill(id, snap) => CommitFulfill(d, id, snap)
    case Cancel(id, snap) => CommitClose(d, id, snap, Canceled, CancelKey(id))
    case Expire(id, snap) => CommitClose(d, id, snap, Expired, ExpireKey(id))
  }

  // ----- Runs -----

  datatype Action =
    | BeginCreate(buyer: UserId, item: string, maxPrice: int, quantity: int)
    | BeginFulfill(buyer: UserId, item: string, price: int, id: RequestId)
    | BeginCancel(buyer: UserId, id: RequestId)
    | BeginExpire(id: RequestId)
    | Finish(call: Call)
    | Drop(lost: Call)
    | OrderMoney(user: UserId, delta: int)

  datatype State = State(d: Tables, inFlight: multiset<Call>)

  function Begin(s: State, call: Call): State {
    s.(inFlight := s.inFlight + multiset{call})
  }

  function Step(s: State, a: Action): State {
    var rs := s.d.requests;
    match a
    case BeginCreate(buyer, item, maxPrice, quantity) =>
      if CreateAdmitted(s.d, buyer, item, maxPrice, quantity)
      then Begin(s, Create(buyer, item, maxPrice, quantity)) else s
    case BeginFulfill(buyer, item, price, id) =>
      if Picked(rs, buyer, item, price, id) then Begin(s, Fulfill(id, rs[id])) else s
    case BeginCancel(buyer, id) =>
      if id < |rs| && rs[id].buyer == buyer && rs[id].status.Open? then Begin(s, Cancel(id, rs[id])) else s
    case BeginExpire(id) =>
      if id < |rs| && rs[id].status.Open? then Begin(s, Expire(id, rs[id])) else s
    case Finish(call) =>
      if call !in s.inFlight then s else State(Commit(s.d, call).GetOr(s.d), s.inFlight - multiset{call})
    case Drop(lost) => s.(inFlight := s.inFlight - multiset{lost})
    case OrderMoney(u, delta) =>
      if u < |s.d.wallets| && delta <= s.d.wallets[u].available && s.d.wallets[u].orders + delta >= 0
      then
        var w := s.d.wallets[u];
        s.(d := s.d.(wallets := s.d.wallets[u := Wallet(w.available - delta, w.held + delta, w.orders + delta)]))
      else s
  }

  function Run(s: State, acts: seq<Action>): State
    decreases |acts|
  {
    if acts == [] then s else Run(Step(s, acts[0]), acts[1..])
  }

  ghost predicate Initial(s: State) {
    && s.d.requests == [] && s.d.entries == map[] && s.inFlight == multiset{}
    && forall u :: 0 <= u < |s.d.wallets| ==>
         s.d.wallets[u].orders >= 0 && s.d.wallets[u].held == s.d.wallets[u].orders
  }

  // ----- The invariant -----

  /** What all requests of a user keep in the hold account. */
  function ReservedBy(rs: seq<Request>, u: UserId): int {
    if rs == [] then 0
    else
      var r := rs[|rs| - 1];
      ReservedBy(rs[..|rs| - 1], u) + if r.buyer == u then r.reserved else 0
  }

  lemma {:induction false} ReservedByUpdate(rs: seq<Request>, i: nat, r: Request, u: UserId)
    requires i < |rs| && r.buyer == rs[i].buyer
    ensures ReservedBy(rs[i := r], u)
            == ReservedBy(rs, u) + (if r.buyer == u then r.reserved - rs[i].reserved else 0)
  {
    var n := |rs| - 1;
    if i == n {
      assert rs[i := r][..n] == rs[..n];
    } else {
      assert rs[i := r][..n] == rs[..n][i := r];
      ReservedByUpdate(rs[..n], i, r, u);
    }
  }

  /** The unfilled rest of a request at its price. */
  function Rest(r: Request): int {
    r.maxPrice * (r.quantity - r.filled)
  }

  ghost predicate HasEntry(d: Tables, u: UserId, key: Key, amount: int) {
    (u, key) in d.entries && d.entries[(u, key)] == amount
  }

  predicate Sized(r: Request) {
    && r.maxPrice > 0 && 1 <= r.quantity && 0 <= r.filled <= r.quantity
    && (r.status.Open? ==> r.filled < r.quantity)
    && (r.status.Fulfilled? <==> r.filled == r.quantity)
    && r.reserved == (if r.status.Open? then Rest(r) else 0)
  }

  /** The entries of a request are its reserve, one release per filled unit, and one for its rest once closed. */
  ghost predicate Recorded(d: Tables, i: nat)
    requires i < |d.requests|
  {
    var r := d.requests[i];
    && HasEntry(d, r.buyer, ReserveKey(i), r.maxPrice * r.quantity)
    && (forall k :: 1 <= k <= r.filled ==> HasEntry(d, r.buyer, FulfillKey(i, k), r.maxPrice))
    && (forall k :: (r.buyer, FulfillKey(i, k)) in d.entries ==> 1 <= k <= r.filled)
    && (if r.status.Canceled? then HasEntry(d, r.buyer, CancelKey(i), Rest(r))
        else (r.buyer, CancelKey(i)) !in d.entries)
    && (if r.status.Expired? then HasEntry(d, r.buyer, ExpireKey(i), Rest(r))
        else (r.buyer, ExpireKey(i)) !in d.entries)
  }

  ghost predicate RowOk(d: Tables, i: nat)
    requires i < |d.requests|
  {
    d.requests[i].buyer < |d.wallets| && Sized(d.requests[i]) && Recorded(d, i)
  }

  ghost predicate HeldOk(d: Tables) {
    forall u :: 0 <= u < |d.wallets| ==>
      d.wallets[u].orders >= 0 && d.wallets[u].held == d.wallets[u].orders + ReservedBy(d.requests, u)
  }

  ghost predicate TablesOk(d: Tables) {
    && (forall i :: 0 <= i < |d.requests| ==> RowOk(d, i))
    && (forall u, key :: (u, key) in d.entries ==> key.id < |d.requests|)
    && HeldOk(d)
  }

  predicate SameTerms(r: Request, q: Request) {
    r.buyer == q.buyer && r.item == q.item && r.maxPrice == q.maxPrice && r.quantity == q.quantity
  }

  /** A call in flight read a row of the same terms that was sound when it was read. */
  predicate CallOk(d: Tables, call: Call) {
    match call
    case Create(buyer, _, _, quantity) => 1 <= quantity
    case Fulfill(id, snap) => id < |d.requests| && SameTerms(snap, d.requests[id]) && Sized(snap) && snap.status.Open?
    case Cancel(id, snap) => id < |d.requests| && SameTerms(snap, d.requests[id]) && Sized(snap) && snap.status.Open?
    case Expire(id, snap) => id < |d.requests| && SameTerms(snap, d.requests[id]) && Sized(snap) && snap.status.Open?
  }

  ghost predicate Inv(s: State) {
    TablesOk(s.d) && forall call :: call in s.inFlight ==> CallOk(s.d, call)
  }
}
