/** The payment order use cases as they run, with the provider's answers as parameters. */
module PaymentService {
  import opened Results
  import opened Int64
  import opened Accounts
  import opened Refs
  import opened Ledger
  import opened Domain
  import opened Databases
  import opened LedgerService
  import opened EscrowService
  import Machine

  /** What a lookup by authority may answer. */
  ghost predicate Finds(orders: map<string, OrderRow>, authority: string, found: Option<string>) {
    match found
    case Some(id) => id in orders && orders[id].authority == authority
    case None => forall id :: id in orders ==> orders[id].authority != authority
  }

  class PaymentUseCases {
    const db: Database
    const ledger: LedgerUseCases
    const escrows: EscrowUseCases

    constructor (db: Database)
      ensures this.db == db && Wired()
    {
      this.db := db;
      ledger := new LedgerUseCases(db);
      escrows := new EscrowUseCases(db);
    }

    /** All parts work on one database. */
    ghost predicate Wired() {
      ledger.db == db && escrows.db == db && escrows.ledger.db == db
    }

    /** The row goes in before the provider is asked, and is updated after; an update that fails leaves it as it went in, and
        that of a refused order is not even looked at. */
    method InsertAndRequest(id: Uuid, order: OrderRow, track: Option<string>, inserts: bool, updates: bool)
      returns (r: Result<OrderRow>)
      requires db.Valid()
      modifies db
      ensures Refines(db, r, Machine.InsertOrder(old(db.State()), id, order, track, inserts, updates))
    {
      if id in db.orders {
        return Err(DuplicateId);
      }
      if !inserts {
        return Err(CommitFailed);
      }
      var row := order;
      db.orders := db.orders[id := row];
      if track.None? {
        row := row.(status := OrderFailed);
        if updates {
          db.orders := db.orders[id := row];
        }
        return Err(ProviderRequestFailed);
      }
      row := row.(authority := track.value);
      if !updates {
        return Err(CommitFailed);
      }
      db.orders := db.orders[id := row];
      return Ok(row);
    }

    method CreatePaymentOrder(id: Uuid, ship: string, payer: string, amount: int64, successUrl: string, failureUrl: string,
                              agreedPrice: int64, track: Option<string>, inserts: bool, updates: bool)
      returns (r: Result<OrderRow>)
      requires db.Valid()
      modifies db
      ensures Refines(db, r, Machine.CreatePaymentOrder(old(db.State()), id, ship, payer, amount, successUrl, failureUrl,
                                                        agreedPrice, track, inserts, updates))
    {
      if ship == "" || payer == "" || amount <= 0 {
        return Err(PaymentInvalidInput);
      }
      if successUrl == "" || failureUrl == "" {
        return Err(PaymentInvalidInput);
      }
      if agreedPrice > 0 && agreedPrice != amount {
        return Err(AmountMismatch);
      }
      if ship !in db.escrows {
        return Err(EscrowNotFound);
      }
      var escrow := db.escrows[ship];
      if !escrow.status.CanFund() {
        return Err(EscrowNotReady);
      }
      if escrow.payer != payer {
        return Err(PayerMismatch);
      }
      if escrow.amount != amount {
        return Err(AmountMismatch);
      }
      r := InsertAndRequest(id, OrderRow(ship, payer, Shipment, amount, Pending, ""), track, inserts, updates);
    }

    method CreateWalletTopupOrder(id: Uuid, user: string, amount: int64, successUrl: string, failureUrl: string,
                                  track: Option<string>, inserts: bool, updates: bool) returns (r: Result<OrderRow>)
      requires db.Valid()
      modifies db
      ensures Refines(db, r, Machine.CreateWalletTopupOrder(old(db.State()), id, user, amount, successUrl, failureUrl, track,
                                                            inserts, updates))
    {
      if user == "" || amount <= 0 {
        return Err(PaymentInvalidInput);
      }
      if successUrl == "" || failureUrl == "" {
        return Err(PaymentInvalidInput);
      }
      r := InsertAndRequest(id, OrderRow("", user, TopUp, amount, Pending, ""), track, inserts, updates);
    }

    /** Reads the row again inside the transaction, posts the money, confirms, and records the verify event. */
    method ConfirmInTx(id: string) returns (r: Result<OrderRow>)
      requires db.Valid() && Wired()
      modifies db
      ensures RefinesInTx(db, r, Machine.ConfirmOrder(old(db.State()), id))
    {
      if id !in db.orders {
        return Err(OrderNotFound);
      }
      var current := db.orders[id];
      if current.status == Confirmed {
        return Ok(current);
      }
      match current.purpose {
        case Shipment =>
          var funded := escrows.FundEscrow(current.shipmentId, id, true, false);
          if funded.Err? {
            return Err(funded.error);
          }
        case TopUp =>
          var refused := ledger.PostJournal(WalletTopup, TopupRef(id),
                                            [Line(PspClearing, current.amount, 0), Line(Wallet(current.payer), 0, current.amount)]);
          if refused.Some? {
            return Err(refused.value);
          }
      }
      current := current.(status := Confirmed);
      db.orders := db.orders[id := current];
      if id in db.verifyEvents {
        return Err(DuplicateEvent);
      }
      db.verifyEvents := db.verifyEvents + {id};
      return Ok(current);
    }

    /** The transaction of a verification. */
    method ConfirmOrder(id: string, commits: bool) returns (r: Result<OrderRow>)
      requires db.Valid() && Wired()
      modifies db
      ensures Refines(db, r, Machine.Ended(old(db.State()), Machine.ConfirmOrder(old(db.State()), id), commits))
    {
      var tx := db.Begin();
      r := ConfirmInTx(id);
      r := db.End(tx, r, commits);
    }

    method VerifyOrder(id: string, purpose: Option<Purpose>, reply: Option<int64>, commits: bool) returns (r: Result<OrderRow>)
      requires db.Valid() && Wired()
      modifies db
      ensures Refines(db, r, Machine.VerifyOrder(old(db.State()), id, purpose, reply, commits))
    {
      if id !in db.orders {
        return Err(OrderNotFound);
      }
      var order := db.orders[id];
      if purpose.Some? && order.purpose != purpose.value {
        return Err(InvalidPurpose);
      }
      if order.status == Confirmed {
        return Ok(order);
      }
      if order.status == OrderFailed {
        return Err(ProviderVerifyFailed);
      }
      if reply.None? {
        return Err(ProviderVerifyFailed);
      }
      if reply.value != order.amount {
        return Err(AmountMismatch);
      }
      r := ConfirmOrder(id, commits);
    }

    method FailOrder(id: string, updates: bool) returns (r: Result<OrderRow>)
      requires db.Valid()
      modifies db
      ensures Refines(db, r, Machine.FailPaymentOrder(old(db.State()), id, updates))
    {
      if id !in db.orders {
        return Err(OrderNotFound);
      }
      var order := db.orders[id];
      if order.status == Confirmed {
        return Ok(order);
      }
      if !updates {
        return Err(CommitFailed);
      }
      order := order.(status := OrderFailed);
      db.orders := db.orders[id := order];
      return Ok(order);
    }

    // ---- by authority ----------------------------------------------------------------------------

    /** Some row with this authority; authorities have an index but no unique constraint, so there may be several. */
    method FindByAuthority(authority: string) returns (r: Option<string>)
      ensures Finds(db.orders, authority, r)
    {
      if id :| id in db.orders && db.orders[id].authority == authority {
        return Some(id);
      }
      return None;
    }

    method VerifyByAuthority(authority: string, purpose: Option<Purpose>, reply: Option<int64>, commits: bool)
      returns (r: Result<OrderRow>, ghost found: Option<string>)
      requires db.Valid() && Wired()
      modifies db
      ensures authority == "" ==> Refines(db, r, Machine.Refuse(old(db.State()), PaymentInvalidInput))
      ensures authority != "" ==>
                && Finds(old(db.orders), authority, found)
                && Refines(db, r, if found.None? then Machine.Refuse(old(db.State()), OrderNotFound)
                                  else Machine.VerifyOrder(old(db.State()), found.value, purpose, reply, commits))
    {
      found := None;
      if authority == "" {
        r := Err(PaymentInvalidInput);
        return;
      }
      var id := FindByAuthority(authority);
      found := id;
      if id.None? {
        r := Err(OrderNotFound);
        return;
      }
      r := VerifyOrder(id.value, purpose, reply, commits);
    }

    method FailPaymentOrder(authority: string, updates: bool) returns (r: Result<OrderRow>, ghost found: Option<string>)
      requires db.Valid()
      modifies db
      ensures authority == "" ==> Refines(db, r, Machine.Refuse(old(db.State()), PaymentInvalidInput))
      ensures authority != "" ==>
                && Finds(old(db.orders), authority, found)
                && Refines(db, r, if found.None? then Machine.Refuse(old(db.State()), OrderNotFound)
                                  else Machine.FailPaymentOrder(old(db.State()), found.value, updates))
    {
      found := None;
      if authority == "" {
        r := Err(PaymentInvalidInput);
        return;
      }
      var id := FindByAuthority(authority);
      found := id;
      if id.None? {
        r := Err(OrderNotFound);
        return;
      }
      r := FailOrder(id.value, updates);
    }

    /** Verifies when the provider's redirect reports success, and fails the order on any verify error; each of the two looks
        the order up by itself. */
    method HandleCallback(track: string, success: bool, reply: Option<int64>, commits: bool, updates: bool)
      returns (r: Result<OrderRow>, ghost id: Option<string>, ghost other: Option<string>)
      requires db.Valid() && Wired()
      modifies db
      ensures track == "" ==> Refines(db, r, Machine.Refuse(old(db.State()), PaymentInvalidInput))
      ensures track != "" ==>
                && Finds(old(db.orders), track, id) && Finds(old(db.orders), track, other) && (id.None? <==> other.None?)
                && Refines(db, r, if id.None? then Machine.Refuse(old(db.State()), OrderNotFound)
                                  else Machine.HandleCallback(old(db.State()), id.value, other.value, success, reply, commits, updates))
    {
      id, other := None, None;
      if track == "" {
        r := Err(PaymentInvalidInput);
        return;
      }
      if !success {
        r, other := FailPaymentOrder(track, updates);
        id := other;
        return;
      }
      r, id := VerifyByAuthority(track, None, reply, commits);
      other := id;
      if r.Err? {
        var failed;
        failed, other := FailPaymentOrder(track, updates);
        if failed.Ok? {
          r := failed;
        }
      }
    }
  }
}
