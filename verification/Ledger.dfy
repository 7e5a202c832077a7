/**
 The wallet accounts behind orders (ledger.service.ts): every operation moves money between accounts
 under an idempotency key, and an operation whose key the wallet already holds moves nothing.
 */
module Ledger {
  import opened Common

  type UserId = nat

  /** The wallet that receives commissions. */
  const PLATFORM: UserId := 0

  /** `forRequests` is the part of the hold account that buy requests reserved. */
  datatype Wallet = Wallet(available: int, held: int, forRequests: int)

  datatype Key =
    | OrderReserve(k: string)
    | OrderCancel(k: string)
    | SettlementRelease(orderId: string)
    | HoldReverse(orderId: string)
    | ResolveBuyer(k: string)
    | ResolveSeller(k: string)
    | FailSafe(orderId: string, reason: string)
    | SellerLeg(of: Key)
    | PlatformLeg(of: Key)

  datatype Book = Book(wallets: seq<Wallet>, keys: set<(UserId, Key)>)

  /** The outcome of an operation that did not throw: did money move, or was the key already there? */
  datatype Moved = Moved(book: Book, moved: bool)

  predicate HasPlatform(b: Book) {
    PLATFORM < |b.wallets|
  }

  function Credit(b: Book, u: UserId, amount: int): Book
    requires u < |b.wallets|
  {
    b.(wallets := b.wallets[u := b.wallets[u].(available := b.wallets[u].available + amount)])
  }

  function Shift(b: Book, u: UserId, toHeld: int): Book
    requires u < |b.wallets|
  {
    b.(wallets := b.wallets[u := b.wallets[u].(available := b.wallets[u].available - toHeld,
                                               held := b.wallets[u].held + toHeld)])
  }

  function ReservePurchaseHold(b: Book, buyer: UserId, amount: int, key: Key): Option<Moved>
    requires buyer < |b.wallets|
  {
    if amount <= 0 then None
    else if (buyer, key) in b.keys then Some(Moved(b, false))
    else if b.wallets[buyer].available < amount then None
    else Some(Moved(Shift(b, buyer, amount).(keys := b.keys + {(buyer, key)}), true))
  }

  function RefundHold(b: Book, buyer: UserId, amount: int, key: Key): Option<Moved>
    requires buyer < |b.wallets|
  {
    if amount <= 0 then None
    else if (buyer, key) in b.keys then Some(Moved(b, false))
    else if b.wallets[buyer].held < amount then None
    else Some(Moved(Shift(b, buyer, -amount).(keys := b.keys + {(buyer, key)}), true))
  }

  function SettleSale(b: Book, buyer: UserId, seller: UserId, total: int, sellerReceive: int,
                      commission: int, key: Key): Option<Moved>
    requires buyer < |b.wallets| && seller < |b.wallets| && HasPlatform(b)
  {
    if sellerReceive + commission != total then None
    else if (buyer, key) in b.keys then Some(Moved(b, false))
    else if b.wallets[buyer].held < total then None
    // The seller and platform entries have keys of their own, which must be new in those wallets.
    else if (seller, SellerLeg(key)) in b.keys || (PLATFORM, PlatformLeg(key)) in b.keys then None
    else
      var w := b.wallets[buyer];
      var debited := b.(wallets := b.wallets[buyer := w.(held := w.held - total)]);
      var credited := Credit(Credit(debited, seller, sellerReceive), PLATFORM, commission);
      Some(Moved(credited.(keys := b.keys + {(buyer, key), (seller, SellerLeg(key)), (PLATFORM, PlatformLeg(key))}),
                 true))
  }

  function ReserveForRequest(b: Book, u: UserId, amount: int): Option<Book>
    requires u < |b.wallets|
  {
    if amount <= 0 || b.wallets[u].available < amount then None
    else
      var s := Shift(b, u, amount);
      Some(s.(wallets := s.wallets[u := s.wallets[u].(forRequests := s.wallets[u].forRequests + amount)]))
  }

  function ReleaseForRequest(b: Book, u: UserId, amount: int): Option<Book>
    requires u < |b.wallets|
  {
    if amount <= 0 || b.wallets[u].forRequests < amount || b.wallets[u].held < amount then None
    else
      var s := Shift(b, u, -amount);
      Some(s.(wallets := s.wallets[u := s.wallets[u].(forRequests := s.wallets[u].forRequests - amount)]))
  }

  // ----- Conservation -----

  function Total(wallets: seq<Wallet>): int {
    if wallets == [] then 0
    else wallets[0].available + wallets[0].held + Total(wallets[1..])
  }

  lemma {:induction false} TotalUpdate(wallets: seq<Wallet>, u: UserId, w: Wallet)
    requires u < |wallets|
    ensures Total(wallets[u := w])
            == Total(wallets) - wallets[u].available - wallets[u].held + w.available + w.held
  {
    if u == 0 {
      assert wallets[u := w][1..] == wallets[1..];
    } else {
      assert wallets[u := w][1..] == wallets[1..][u - 1 := w];
      TotalUpdate(wallets[1..], u - 1, w);
    }
  }

  /** Only the hold account of `u` changed, by `delta`, and no money was created or destroyed. */
  ghost predicate HeldChange(b: Book, c: Book, u: UserId, delta: int) {
    && |c.wallets| == |b.wallets|
    && Total(c.wallets) == Total(b.wallets)
    && forall v :: 0 <= v < |b.wallets| ==>
         c.wallets[v].forRequests == b.wallets[v].forRequests
         && c.wallets[v].held == b.wallets[v].held + (if v == u then delta else 0)
  }

  /** What every user's available balance gained: the parties' shares, added up where they are one user. */
  ghost predicate AvailableChange(b: Book, c: Book, buyer: UserId, toBuyer: int, seller: UserId, toSeller: int,
                                  toPlatform: int) {
    && |c.wallets| == |b.wallets|
    && forall v :: 0 <= v < |b.wallets| ==>
         c.wallets[v].available == b.wallets[v].available + (if v == buyer then toBuyer else 0)
                                   + (if v == seller then toSeller else 0) + (if v == 0 then toPlatform else 0)
  }

  /** A purchase hold is refused exactly without an amount, or when the money is missing under a new key. */
  lemma ReserveIsRefusedExactly(b: Book, buyer: UserId, amount: int, key: Key)
    requires buyer < |b.wallets|
    ensures ReservePurchaseHold(b, buyer, amount, key) == None
            <==> amount <= 0 || ((buyer, key) !in b.keys && b.wallets[buyer].available < amount)
    ensures (buyer, key) !in b.keys
            ==> (RefundHold(b, buyer, amount, key) == None <==> amount <= 0 || b.wallets[buyer].held < amount)
    ensures (buyer, key) in b.keys ==> (RefundHold(b, buyer, amount, key) == None <==> amount <= 0)
  {
  }

  /** A settlement is refused exactly if its shares do not add up, or under a new key if the hold account does not
      cover it or a seller or platform entry has that key already. */
  lemma SettleIsRefusedExactly(b: Book, buyer: UserId, seller: UserId, total: int, sellerReceive: int,
                               commission: int, key: Key)
    requires buyer < |b.wallets| && seller < |b.wallets| && HasPlatform(b)
    ensures SettleSale(b, buyer, seller, total, sellerReceive, commission, key) == None
            <==> || total != sellerReceive + commission
                 || ((buyer, key) !in b.keys
                     && (b.wallets[buyer].held < total || (seller, SellerLeg(key)) in b.keys
                         || (0, PlatformLeg(key)) in b.keys))
  {
  }

  lemma ReserveEffect(b: Book, buyer: UserId, amount: int, key: Key)
    requires buyer < |b.wallets| && ReservePurchaseHold(b, buyer, amount, key).Some?
    ensures var m := ReservePurchaseHold(b, buyer, amount, key).value;
            && HeldChange(b, m.book, buyer, if m.moved then amount else 0)
            && AvailableChange(b, m.book, buyer, if m.moved then -amount else 0, buyer, 0, 0)
            && (m.moved <==> (buyer, key) !in b.keys)
            && m.book.keys == b.keys + {(buyer, key)}
  {
    var w := b.wallets[buyer];
    TotalUpdate(b.wallets, buyer, w.(available := w.available - amount, held := w.held + amount));
  }

  lemma RefundEffect(b: Book, buyer: UserId, amount: int, key: Key)
    requires buyer < |b.wallets| && RefundHold(b, buyer, amount, key).Some?
    ensures var m := RefundHold(b, buyer, amount, key).value;
            && HeldChange(b, m.book, buyer, if m.moved then -amount else 0)
            && AvailableChange(b, m.book, buyer, if m.moved then amount else 0, buyer, 0, 0)
            && (m.moved <==> (buyer, key) !in b.keys)
            && m.book.keys == b.keys + {(buyer, key)}
  {
    var w := b.wallets[buyer];
    TotalUpdate(b.wallets, buyer, w.(available := w.available + amount, held := w.held - amount));
  }

  /** A settlement conserves money however buyer, seller and platform coincide. */
  lemma SettleEffect(b: Book, buyer: UserId, seller: UserId, total: int, sellerReceive: int,
                     commission: int, key: Key)
    requires buyer < |b.wallets| && seller < |b.wallets| && HasPlatform(b)
    requires SettleSale(b, buyer, seller, total, sellerReceive, commission, key).Some?
    ensures var m := SettleSale(b, buyer, seller, total, sellerReceive, commission, key).value;
            && HeldChange(b, m.book, buyer, if m.moved then -total else 0)
            && AvailableChange(b, m.book, buyer, 0, seller, if m.moved then sellerReceive else 0,
                               if m.moved then commission else 0)
            && (m.moved <==> (buyer, key) !in b.keys)
            && b.keys <= m.book.keys
            && m.book.keys == (if m.moved then b.keys + {(buyer, key), (seller, SellerLeg(key)), (PLATFORM, PlatformLeg(key))}
                               else b.keys)
            && sellerReceive + commission == total
  {
    var w := b.wallets[buyer];
    var d := b.(wallets := b.wallets[buyer := w.(held := w.held - total)]);
    TotalUpdate(b.wallets, buyer, w.(held := w.held - total));
    var c := Credit(d, seller, sellerReceive);
    TotalUpdate(d.wallets, seller, c.wallets[seller]);
    TotalUpdate(c.wallets, PLATFORM, Credit(c, PLATFORM, commission).wallets[PLATFORM]);
  }

  /** Only `u`'s wallet changed: `amount` went from the available balance to the hold account, for requests. */
  ghost predicate RequestMove(b: Book, c: Book, u: UserId, amount: int)
    requires u < |b.wallets|
  {
    var w := b.wallets[u];
    c == b.(wallets := b.wallets[u := Wallet(w.available - amount, w.held + amount, w.forRequests + amount)])
  }

  /** Requests reserve and release exactly, as far as the balance and the part reserved for requests go. */
  lemma RequestsConserve(b: Book, u: UserId, amount: int)
    requires u < |b.wallets|
    ensures ReserveForRequest(b, u, amount).Some? <==> 0 < amount <= b.wallets[u].available
    ensures ReserveForRequest(b, u, amount).Some? ==>
              RequestMove(b, ReserveForRequest(b, u, amount).value, u, amount)
              && Total(ReserveForRequest(b, u, amount).value.wallets) == Total(b.wallets)
    ensures ReleaseForRequest(b, u, amount).Some?
            <==> 0 < amount && amount <= b.wallets[u].forRequests && amount <= b.wallets[u].held
    ensures ReleaseForRequest(b, u, amount).Some? ==>
              RequestMove(b, ReleaseForRequest(b, u, amount).value, u, -amount)
              && Total(ReleaseForRequest(b, u, amount).value.wallets) == Total(b.wallets)
  {
    if ReserveForRequest(b, u, amount).Some? {
      var s := ReserveForRequest(b, u, amount).value;
      assert s.wallets == b.wallets[u := s.wallets[u]];
      TotalUpdate(b.wallets, u, s.wallets[u]);
    }
    if ReleaseForRequest(b, u, amount).Some? {
      var s := ReleaseForRequest(b, u, amount).value;
      assert s.wallets == b.wallets[u := s.wallets[u]];
      TotalUpdate(b.wallets, u, s.wallets[u]);
    }
  }

  // ----- No wallet is overdrawn -----

  ghost predicate Solvent(b: Book) {
    forall u :: 0 <= u < |b.wallets| ==> b.wallets[u].available >= 0 && b.wallets[u].held >= 0
  }

  lemma HoldsKeepSolvent(b: Book, buyer: UserId, amount: int, key: Key)
    requires Solvent(b) && buyer < |b.wallets|
    ensures ReservePurchaseHold(b, buyer, amount, key).Some? ==>
              Solvent(ReservePurchaseHold(b, buyer, amount, key).value.book)
    ensures RefundHold(b, buyer, amount, key).Some? ==> Solvent(RefundHold(b, buyer, amount, key).value.book)
    ensures ReserveForRequest(b, buyer, amount).Some? ==> Solvent(ReserveForRequest(b, buyer, amount).value)
    ensures ReleaseForRequest(b, buyer, amount).Some? ==> Solvent(ReleaseForRequest(b, buyer, amount).value)
  {
  }

  lemma SettlingKeepsSolvent(b: Book, buyer: UserId, seller: UserId, total: int, sellerReceive: int,
                             commission: int, key: Key)
    requires Solvent(b) && buyer < |b.wallets| && seller < |b.wallets| && HasPlatform(b)
    requires sellerReceive >= 0 && commission >= 0
    requires SettleSale(b, buyer, seller, total, sellerReceive, commission, key).Some?
    ensures Solvent(SettleSale(b, buyer, seller, total, sellerReceive, commission, key).value.book)
  {
  }
}
