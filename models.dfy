/**
 * The stored records: transactions, users, price samples and investment plans,
 * with the validation and defaults their schemas apply when a record is created.
 */
module Models {
  import opened Base

  type PlanId = nat
  type UserId = string
  /** A point in time, in milliseconds since the epoch. */
  type Time = int

  /** Why the store refused to create a record: the path of the offending field. */
  datatype ValidationError = Missing(path: string) | NotInEnum(path: string) | DuplicateKey(path: string)

  /** A required string field: present and not empty (an empty string fails `required`). */
  predicate Present(v: Option<string>) {
    v.Some? && v.value != ""
  }

  // ---------------------------------------------------------------- Transaction

  /** The `status` enum of a transaction. */
  datatype TxStatus = Pending | Completed | Failed

  function StatusName(s: TxStatus): string {
    match s
    case Pending => "pending"
    case Completed => "completed"
    case Failed => "failed"
  }

  /** The enum validator: the status a stored string denotes, if it is one of the three. */
  function ParseStatus(name: string): (r: Option<TxStatus>)
    ensures r.Some? <==> name in {"pending", "completed", "failed"}
  {
    if name == "pending" then Some(Pending)
    else if name == "completed" then Some(Completed)
    else if name == "failed" then Some(Failed)
    else None
  }

  /** The enum's names and its values are in one-to-one correspondence. */
  lemma StatusRoundTrip(s: TxStatus, name: string)
    ensures ParseStatus(StatusName(s)) == Some(s)
    ensures ParseStatus(name) == Some(s) ==> StatusName(s) == name
  {
  }

  /** One execution attempt in the append-only ledger. */
  datatype Transaction = Transaction(
    planId: Option<PlanId>,
    userId: UserId,
    tokenSymbol: string,
    amount: real,
    tokenAmount: real,
    tokenPrice: real,
    txHash: string,
    status: TxStatus,
    timestamp: Time)

  /** What a caller hands to the store to create a transaction; any field may be left out. */
  datatype TransactionFields = TransactionFields(
    planId: Option<PlanId>,
    userId: Option<UserId>,
    tokenSymbol: Option<string>,
    amount: Option<real>,
    tokenAmount: Option<real>,
    tokenPrice: Option<real>,
    txHash: Option<string>,
    status: Option<string>,
    timestamp: Option<Time>)

  /** A stored transaction read back as the fields it was created from. */
  function TransactionFieldsOf(t: Transaction): TransactionFields {
    TransactionFields(t.planId, Some(t.userId), Some(t.tokenSymbol), Some(t.amount), Some(t.tokenAmount),
                      Some(t.tokenPrice), Some(t.txHash), Some(StatusName(t.status)), Some(t.timestamp))
  }

  /** The schema's defaults: status `pending`, timestamp the creation time. */
  function TransactionDefaults(f: TransactionFields, now: Time): TransactionFields {
    f.(status := Some(if f.status.Some? then f.status.value else "pending"),
       timestamp := Some(if f.timestamp.Some? then f.timestamp.value else now))
  }

  /** Transaction.create: validates the required fields and the status enum, then applies the defaults. */
  function NewTransaction(f: TransactionFields, now: Time): (r: Result<Transaction, ValidationError>)
    ensures r.Ok? <==>
      && f.userId.Some? && Present(f.tokenSymbol) && f.amount.Some? && f.tokenAmount.Some?
      && f.tokenPrice.Some? && Present(f.txHash)
      && (f.status.None? || ParseStatus(f.status.value).Some?)
    ensures r.Ok? ==> TransactionFieldsOf(r.value) == TransactionDefaults(f, now)
  {
    var status := if f.status.Some? then f.status.value else "pending";
    if f.userId.None? then Err(Missing("userId"))
    else if !Present(f.tokenSymbol) then Err(Missing("tokenSymbol"))
    else if f.amount.None? then Err(Missing("amount"))
    else if f.tokenAmount.None? then Err(Missing("tokenAmount"))
    else if f.tokenPrice.None? then Err(Missing("tokenPrice"))
    else if !Present(f.txHash) then Err(Missing("txHash"))
    else if ParseStatus(status).None? then Err(NotInEnum("status"))
    else
      var st := ParseStatus(status).value;
      StatusRoundTrip(st, status);
      Ok(Transaction(f.planId, f.userId.value, f.tokenSymbol.value, f.amount.value, f.tokenAmount.value,
                     f.tokenPrice.value, f.txHash.value, st,
                     if f.timestamp.Some? then f.timestamp.value else now))
  }

  /** Leaving out the status gives a `pending` transaction. */
  lemma StatusDefaultsToPending(f: TransactionFields, now: Time)
    requires f.status.None? && NewTransaction(f, now).Ok?
    ensures NewTransaction(f, now).value.status == Pending
  {
    StatusRoundTrip(NewTransaction(f, now).value.status, "pending");
  }

  /** A status string outside the enum is refused, whatever the other fields hold. */
  lemma StatusOutsideEnumRefused(f: TransactionFields, now: Time)
    requires f.status.Some? && f.status.value !in {"pending", "completed", "failed"}
    ensures NewTransaction(f, now).Err?
  {
  }

  /** A transaction without a plan is accepted when every required field is given. */
  lemma PlanIdIsOptional(f: TransactionFields, now: Time)
    requires NewTransaction(f, now).Ok?
    ensures NewTransaction(f.(planId := None), now).Ok?
    ensures NewTransaction(f.(planId := None), now).value.planId == None
  {
  }

  // ---------------------------------------------------------------- User

  /** A platform user and the running total of what their plans have invested. */
  datatype User = User(address: string, totalInvested: real, createdAt: Time, updatedAt: Time)

  datatype UserFields = UserFields(address: Option<string>, totalInvested: Option<real>)

  /** The unique index on `address`. */
  ghost predicate UniqueAddresses(users: map<UserId, User>) {
    forall a, b :: a in users && b in users && a != b ==> users[a].address != users[b].address
  }

  predicate AddressTaken(users: map<UserId, User>, address: string) {
    exists id :: id in users && users[id].address == address
  }

  /**
   * User.create: `address` is required and must not be in use by another user,
   * `totalInvested` defaults to 0, and both timestamps are the creation time.
   */
  function NewUser(f: UserFields, users: map<UserId, User>, now: Time): (r: Result<User, ValidationError>)
    ensures r.Ok? <==> Present(f.address) && !AddressTaken(users, f.address.value)
    ensures r.Ok? ==> r.value.address == f.address.value && r.value.createdAt == now && r.value.updatedAt == now
    ensures r.Ok? ==> r.value.totalInvested == if f.totalInvested.Some? then f.totalInvested.value else 0.0
  {
    if !Present(f.address) then Err(Missing("address"))
    else if AddressTaken(users, f.address.value) then Err(DuplicateKey("address"))
    else Ok(User(f.address.value, if f.totalInvested.Some? then f.totalInvested.value else 0.0, now, now))
  }

  /** Adding a user the store accepted keeps the addresses unique. */
  lemma NewUserKeepsAddressesUnique(f: UserFields, users: map<UserId, User>, id: UserId, now: Time)
    requires UniqueAddresses(users) && id !in users && NewUser(f, users, now).Ok?
    ensures UniqueAddresses(users[id := NewUser(f, users, now).value])
  {
    var u := NewUser(f, users, now).value;
    forall a | a in users ensures users[a].address != u.address {
      assert !AddressTaken(users, f.address.value);
    }
  }

  /** An update that keeps every address keeps them unique. */
  lemma SameAddressesKeepUnique(users: map<UserId, User>, id: UserId, u: User)
    requires UniqueAddresses(users) && id in users && u.address == users[id].address
    ensures UniqueAddresses(users[id := u])
  {
  }

  // ---------------------------------------------------------------- TokenPrice

  /** One observed price of a token. */
  datatype TokenPrice = TokenPrice(symbol: string, price: real, timestamp: Time)

  /** TokenPrice.create: `symbol` and `price` are required, the timestamp defaults to the creation time. */
  function NewSample(symbol: Option<string>, price: Option<real>, timestamp: Option<Time>, now: Time)
    : (r: Result<TokenPrice, ValidationError>)
    ensures r.Ok? <==> Present(symbol) && price.Some?
    ensures r.Ok? ==> r.value.symbol == symbol.value && r.value.price == price.value
    ensures r.Ok? ==> r.value.timestamp == if timestamp.Some? then timestamp.value else now
  {
    if !Present(symbol) then Err(Missing("symbol"))
    else if price.None? then Err(Missing("price"))
    else Ok(TokenPrice(symbol.value, price.value, if timestamp.Some? then timestamp.value else now))
  }

  // ---------------------------------------------------------------- InvestmentPlan

  /** A recurring purchase: the fields the service reads and writes. */
  datatype Plan = Plan(
    id: PlanId,
    userId: UserId,
    tokenSymbol: string,
    amount: real,
    frequency: string,
    toAddress: string,
    isActive: bool,
    totalInvested: real,
    lastExecutionTime: Option<Time>)
}
