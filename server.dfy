/**
 * The coin ledger of the HTTP server: token resolution, the two seeded demo
 * accounts, and the handlers that add students and items, grant coins, buy
 * items and list students and transactions. The key-value store is a
 * `Store` object holding one table per key prefix; each handler is one
 * method that reads the caller's credential and the request fields and
 * either fails with an HTTP error, writing nothing, or writes its records.
 */
module Server {
  import opened Wrappers
  import opened Seqs
  import opened Text
  import opened KeyValue

  /**
   * The `role` field of a user record. Signup accepts any role string, hence
   * `OtherRole`; by convention it never holds `admin`, `teacher` or `student`,
   * which are the three named constructors.
   */
  datatype Role = Admin | Teacher | Student | OtherRole(name: string)

  /**
   * A `user:` record. Only students carry a `studentId`; records without a
   * coin balance (admins, teachers) hold 0. Timestamps are integers.
   */
  datatype User = User(id: string, email: string, name: string, role: Role,
                       studentId: Option<string>, coinBalance: int,
                       teacherId: Option<string>, createdAt: int)

  /** An `item:` record. */
  datatype Item = Item(id: string, name: string, price: int, description: string,
                       available: bool, createdAt: int)

  /** The `type` of a transaction with the fields that only that type has. */
  datatype TxKind = Received(teacherId: string, reason: string)
                  | Purchase(itemId: string, itemName: string)

  /** A `transaction:` record. */
  datatype Transaction = Transaction(id: string, studentId: Option<string>, amount: int,
                                     kind: TxKind, timestamp: int)

  /** The error responses of the handlers, each with its `error` text. */
  datatype HttpError = Unauthorized
                     | Forbidden(message: string)
                     | NotFound(message: string)
                     | BadRequest(message: string)
  {
    /** The HTTP status code the handler answers with. */
    function Status(): int {
      match this
      case Unauthorized => 401
      case Forbidden(_) => 403
      case NotFound(_) => 404
      case BadRequest(_) => 400
    }
  }

  function UserKey(u: User): string { u.id }
  function ItemKey(i: Item): string { i.id }
  function TxKey(t: Transaction): string { t.id }
  function Timestamp(t: Transaction): int { t.timestamp }
  function Amount(t: Transaction): int { t.amount }

  const AdminDemoToken := "demo-admin-token"
  const TeacherDemoToken := "demo-teacher-token"
  const DefaultAdminId := "admin-default"
  const DefaultTeacherId := "teacher-default"

  // ---------------------------------------------------------------------
  // Token resolution (authenticateUser)
  // ---------------------------------------------------------------------

  function IsSpace(c: char): bool { c == ' ' }

  /**
   * The bearer part of the `Authorization` header: the text between the first and the second
   * space of the header. A missing or empty header, a header without a
   * space and an empty segment all count as "no token".
   */
  function BearerToken(header: Option<string>): (tok: Option<string>)
    ensures tok.Some? ==> tok.value != "" && ' ' !in tok.value
    ensures header.None? ==> tok.None?
    ensures header.Some? && ' ' !in header.value ==> tok.None?
  {
    if header.None? || header.value == "" then None
    else
      var h := header.value;
      var i := IndexWhere(h, IsSpace);
      if i == |h| then None
      else
        var rest := h[i + 1..];
        var segment := rest[..IndexWhere(rest, IsSpace)];
        assert forall c :: c in segment ==> c != ' ';
        if segment == "" then None else Some(segment)
  }

  /**
   * A header `<scheme> <token><rest>`, where the scheme and the token hold
   * no space and `rest` is empty or starts with a space, yields exactly that
   * token (or none when the token is empty).
   */
  lemma BearerTokenOf(scheme: string, token: string, rest: string)
    requires ' ' !in scheme && ' ' !in token
    requires rest == "" || rest[0] == ' '
    ensures BearerToken(Some(scheme + " " + token + rest)) == if token == "" then None else Some(token)
  {
    var h := scheme + " " + token + rest;
    assert h == scheme + " " + (token + rest);
    SplitAtSpace(scheme, token + rest);
    var tail := h[|scheme| + 1..];
    if rest == "" {
      assert tail == token;
      IndexWhereIs(tail, IsSpace, |token|);
    } else {
      assert tail == token + " " + rest[1..];
      SplitAtSpace(token, rest[1..]);
    }
    assert tail[..|token|] == token;
  }

  /** In `a + " " + b` with no space in `a`, the first space follows `a` and `b` comes after it. */
  lemma SplitAtSpace(a: string, b: string)
    requires ' ' !in a
    ensures IndexWhere(a + " " + b, IsSpace) == |a|
    ensures (a + " " + b)[|a| + 1..] == b
  {
    var h := a + " " + b;
    assert h[|a|] == ' ';
    assert forall j :: 0 <= j < |a| ==> h[j] == a[j];
    IndexWhereIs(h, IsSpace, |a|);
  }

  /**
   * `authenticateUser`: the caller's user id. The two demo tokens resolve to
   * the seeded accounts; any other token is handed to the identity
   * provider, whose answer (an id, or none) is `provider`.
   */
  function Authenticate(header: Option<string>, provider: string -> Option<string>): (id: Option<string>)
    ensures BearerToken(header).None? ==> id.None?
    ensures BearerToken(header) == Some(AdminDemoToken) ==> id == Some(DefaultAdminId)
    ensures BearerToken(header) == Some(TeacherDemoToken) ==> id == Some(DefaultTeacherId)
    ensures BearerToken(header).Some? && BearerToken(header).value != AdminDemoToken
            && BearerToken(header).value != TeacherDemoToken
            ==> id == provider(BearerToken(header).value)
  {
    match BearerToken(header)
    case None => None
    case Some(token) =>
      if token == AdminDemoToken then Some(DefaultAdminId)
      else if token == TeacherDemoToken then Some(DefaultTeacherId)
      else provider(token)
  }

  /** The header `Bearer demo-admin-token` resolves to the seeded admin, whatever the provider says. */
  lemma AdminTokenResolves(provider: string -> Option<string>)
    ensures Authenticate(Some("Bearer " + AdminDemoToken), provider) == Some(DefaultAdminId)
  {
    BearerTokenOf("Bearer", AdminDemoToken, "");
    assert "Bearer" + " " == "Bearer ";
    assert "Bearer " + AdminDemoToken + "" == "Bearer " + AdminDemoToken;
  }

  /** The header `Bearer demo-teacher-token` resolves to the seeded teacher, whatever the provider says. */
  lemma TeacherTokenResolves(provider: string -> Option<string>)
    ensures Authenticate(Some("Bearer " + TeacherDemoToken), provider) == Some(DefaultTeacherId)
  {
    BearerTokenOf("Bearer", TeacherDemoToken, "");
    assert "Bearer" + " " == "Bearer ";
    assert "Bearer " + TeacherDemoToken + "" == "Bearer " + TeacherDemoToken;
  }

  /**
   * The check every protected handler starts with: 401 when no caller id
   * resolves, 403 (with the handler's own text) when the caller has no
   * record or its role is not one of `allowed`; otherwise the caller's record.
   */
  function Authorize(users: seq<User>, header: Option<string>, provider: string -> Option<string>,
                     allowed: set<Role>, denial: string): (r: Result<User, HttpError>)
    ensures r == Failure(Unauthorized) <==> Authenticate(header, provider).None?
    ensures r.Failure? && r.error != Unauthorized ==> r.error == Forbidden(denial)
    ensures r.Success? <==> Authenticate(header, provider).Some?
                            && Get(users, UserKey, Authenticate(header, provider).value).Some?
                            && Get(users, UserKey, Authenticate(header, provider).value).value.role in allowed
    ensures r.Success? ==> Authenticate(header, provider) == Some(r.value.id) && r.value in users
  {
    match Authenticate(header, provider)
    case None => Failure(Unauthorized)
    case Some(id) =>
      match Get(users, UserKey, id)
      case None => Failure(Forbidden(denial))
      case Some(u) => if u.role in allowed then Success(u) else Failure(Forbidden(denial))
  }

  // ---------------------------------------------------------------------
  // Student ids (generateStudentId)
  // ---------------------------------------------------------------------

  /**
   * The student id drawn from `draw`, the value `Math.random()` returned:
   * 1000000000 plus the draw scaled to 9000000000, rounded down and written
   * in decimal. It is a ten-digit decimal string
   * without a leading zero.
   */
  function GenerateStudentId(draw: real): (sid: string)
    requires 0.0 <= draw < 1.0
    ensures |sid| == 10 && sid[0] != '0'
    ensures forall i :: 0 <= i < |sid| ==> IsDigit(sid[i])
    ensures 1000000000 <= DecimalValue(sid) <= 9999999999
  {
    var n := (1000000000.0 + draw * 9000000000.0).Floor;
    assert 1000000000 <= n <= 9999999999;
    assert Pow10(9) == 1000000000 && Pow10(10) == 10000000000;
    DecimalLength(n, 10);
    DecimalRoundTrip(n);
    DecimalString(n)
  }

  // ---------------------------------------------------------------------
  // Default accounts (initializeDefaultAccounts)
  // ---------------------------------------------------------------------

  function DefaultAdmin(now: int): User
  {
    User(DefaultAdminId, "admin@gmail.com", "System Administrator", Admin, None, 0, None, now)
  }

  function DefaultTeacher(now: int): User
  {
    User(DefaultTeacherId, "teacher@gmail.com", "Demo Teacher", Teacher, None, 0, None, now)
  }

  /**
   * The user table after the start-up seeding: each demo account is written
   * only when no record is stored under its key.
   */
  function SeedDefaults(users: seq<User>, now: int): (r: seq<User>)
    ensures Get(r, UserKey, DefaultAdminId) ==
              if Get(users, UserKey, DefaultAdminId).Some? then Get(users, UserKey, DefaultAdminId) else Some(DefaultAdmin(now))
    ensures Get(r, UserKey, DefaultTeacherId) ==
              if Get(users, UserKey, DefaultTeacherId).Some? then Get(users, UserKey, DefaultTeacherId) else Some(DefaultTeacher(now))
    ensures forall k :: k != DefaultAdminId && k != DefaultTeacherId ==> Get(r, UserKey, k) == Get(users, UserKey, k)
    ensures UniqueKeys(users, UserKey) ==> UniqueKeys(r, UserKey)
  {
    PutGet(users, UserKey, DefaultAdmin(now));
    var withAdmin := if Get(users, UserKey, DefaultAdminId).None? then Put(users, UserKey, DefaultAdmin(now)) else users;
    PutGet(withAdmin, UserKey, DefaultTeacher(now));
    assert UniqueKeys(users, UserKey) ==> UniqueKeys(withAdmin, UserKey) by {
      if UniqueKeys(users, UserKey) {
        PutKeepsUnique(users, UserKey, DefaultAdmin(now));
      }
    }
    assert UniqueKeys(withAdmin, UserKey) ==> UniqueKeys(Put(withAdmin, UserKey, DefaultTeacher(now)), UserKey) by {
      if UniqueKeys(withAdmin, UserKey) {
        PutKeepsUnique(withAdmin, UserKey, DefaultTeacher(now));
      }
    }
    if Get(withAdmin, UserKey, DefaultTeacherId).None? then Put(withAdmin, UserKey, DefaultTeacher(now)) else withAdmin
  }

  /** Seeding a second time, at any time, changes nothing. */
  lemma SeedIdempotent(users: seq<User>, now: int, later: int)
    ensures SeedDefaults(SeedDefaults(users, now), later) == SeedDefaults(users, now)
  {
  }

  // ---------------------------------------------------------------------
  // Lookups and listings
  // ---------------------------------------------------------------------

  /** The position of the first user record carrying this student id (`|users|` when none does). */
  function StudentIndex(users: seq<User>, studentId: string): (i: nat)
    ensures i <= |users|
    ensures i < |users| ==> users[i].studentId == Some(studentId)
    ensures forall j :: 0 <= j < i ==> users[j].studentId != Some(studentId)
  {
    IndexWhere(users, (u: User) => u.studentId == Some(studentId))
  }

  /** `POST /login-student`: the first record with this student id, or 404. */
  function StudentLogin(users: seq<User>, studentId: string): (r: Result<User, HttpError>)
    ensures r.Success? ==> StudentIndex(users, studentId) < |users| && r.value == users[StudentIndex(users, studentId)]
    ensures r.Success? ==> r.value.studentId == Some(studentId)
    ensures r.Failure? <==> forall u :: u in users ==> u.studentId != Some(studentId)
    ensures r.Failure? ==> r.error == NotFound("Student ID not found")
  {
    var i := StudentIndex(users, studentId);
    if i < |users| then Success(users[i]) else Failure(NotFound("Student ID not found"))
  }

  function IsStudent(u: User): bool { u.role == Student }

  /** The `students` listing: every record whose role is student, in store order. */
  function StudentRecords(users: seq<User>): (r: seq<User>)
    ensures forall u :: u in r <==> u in users && u.role == Student
    ensures forall u :: multiset(r)[u] == if u.role == Student then multiset(users)[u] else 0
  {
    Filter(users, IsStudent)
  }

  /** The transactions recorded against one student id. */
  function ForStudent(studentId: string): Transaction -> bool
  {
    (t: Transaction) => t.studentId == Some(studentId)
  }

  /**
   * `GET /transactions/:studentId`: exactly the stored transactions of that
   * student, newest first.
   */
  function StudentTransactions(txs: seq<Transaction>, studentId: string): (r: seq<Transaction>)
    ensures SortedDesc(r, Timestamp)
    ensures forall t :: t in r <==> t in txs && t.studentId == Some(studentId)
    ensures forall t :: multiset(r)[t] == if t.studentId == Some(studentId) then multiset(txs)[t] else 0
  {
    var mine := Filter(txs, ForStudent(studentId));
    var r := SortDesc(mine, Timestamp);
    assert forall t :: t in r <==> t in multiset(mine);
    r
  }

  /** The sum of the amounts recorded against a student id. */
  function LedgerSum(txs: seq<Transaction>, studentId: string): int
  {
    SumBy(Filter(txs, ForStudent(studentId)), Amount)
  }

  /**
   * Writing a transaction under a fresh id moves its student's ledger sum by
   * its amount and leaves every other student's sum as it was.
   */
  lemma RecordMovesLedger(txs: seq<Transaction>, t: Transaction, studentId: string)
    requires Get(txs, TxKey, t.id).None?
    ensures LedgerSum(Put(txs, TxKey, t), studentId) ==
              LedgerSum(txs, studentId) + if t.studentId == Some(studentId) then t.amount else 0
  {
    PutNew(txs, TxKey, t);
    SumByFilterAppend(txs, t, ForStudent(studentId), Amount);
  }

  const GiveCoinsDenied := "Only teachers can give coins"
  const AddStudentDenied := "Only teachers can add students"
  const AddItemDenied := "Only admins can add items"
  const BuyItemDenied := "Only students can buy items"
  const StudentsDenied := "Access denied"

  /** The record `add-student` stores for a new student. */
  function NewStudent(id: string, email: string, name: string, studentId: string,
                      teacherId: string, now: int): User
  {
    User(id, email, name, Student, Some(studentId), 0, Some(teacherId), now)
  }

  /**
   * The checks of `POST /buy-item`, in the handler's order: the caller is a
   * student (403), the item exists (404), it is available (400), and the
   * balance covers the price (400). On success: the buyer and the item.
   */
  function CheckPurchase(users: seq<User>, items: seq<Item>, header: Option<string>,
                         provider: string -> Option<string>, itemId: string): (r: Result<(User, Item), HttpError>)
    ensures var auth := Authorize(users, header, provider, {Student}, BuyItemDenied);
            var item := Get(items, ItemKey, itemId);
            if auth.Failure? then r == Failure(auth.error)
            else if item.None? then r == Failure(NotFound("Item not found"))
            else if !item.value.available then r == Failure(BadRequest("Item is not available"))
            else if auth.value.coinBalance < item.value.price then r == Failure(BadRequest("Insufficient coins"))
            else r == Success((auth.value, item.value))
    ensures r.Success? ==> r.value.0.role == Student && r.value.1.available && r.value.1 in items
    ensures r.Success? ==> r.value.0.coinBalance - r.value.1.price >= 0
  {
    var auth := Authorize(users, header, provider, {Student}, BuyItemDenied);
    if auth.Failure? then Failure(auth.error)
    else
      match Get(items, ItemKey, itemId)
      case None => Failure(NotFound("Item not found"))
      case Some(item) =>
        if !item.available then Failure(BadRequest("Item is not available"))
        else if auth.value.coinBalance < item.price then Failure(BadRequest("Insufficient coins"))
        else Success((auth.value, item))
  }

  // ---------------------------------------------------------------------
  // The store and its handlers
  // ---------------------------------------------------------------------

  class Store {
    /** The `user:` records. */
    var users: seq<User>
    /** The `item:` records. */
    var items: seq<Item>
    /** The `transaction:` records. */
    var transactions: seq<Transaction>

    /** Every key names one record. */
    ghost predicate Valid()
      reads this
    {
      UniqueKeys(users, UserKey) && UniqueKeys(items, ItemKey) && UniqueKeys(transactions, TxKey)
    }

    constructor ()
      ensures Valid() && users == [] && items == [] && transactions == []
    {
      users, items, transactions := [], [], [];
    }

    /** `initializeDefaultAccounts`, run at start-up. */
    method InitializeDefaultAccounts(now: int)
      requires Valid()
      modifies this
      ensures Valid()
      ensures users == SeedDefaults(old(users), now)
      ensures items == old(items) && transactions == old(transactions)
    {
      if Get(users, UserKey, DefaultAdminId).None? {
        PutKeepsUnique(users, UserKey, DefaultAdmin(now));
        users := Put(users, UserKey, DefaultAdmin(now));
      }
      if Get(users, UserKey, DefaultTeacherId).None? {
        PutKeepsUnique(users, UserKey, DefaultTeacher(now));
        users := Put(users, UserKey, DefaultTeacher(now));
      }
    }

    /**
     * `POST /add-student`: a teacher enrols a student. `draw` is what
     * `Math.random()` returned and `created` what the identity provider
     * answered (the new account's id, or its error text).
     */
    method AddStudent(header: Option<string>, provider: string -> Option<string>,
                      name: string, email: string, draw: real,
                      created: Result<string, string>, now: int)
      returns (r: Result<User, HttpError>)
      requires Valid()
      requires 0.0 <= draw < 1.0
      modifies this
      ensures Valid()
      ensures items == old(items) && transactions == old(transactions)
      ensures var auth := Authorize(old(users), header, provider, {Teacher}, AddStudentDenied);
              if auth.Failure? then r == Failure(auth.error) && users == old(users)
              else if created.Failure? then r == Failure(BadRequest(created.error)) && users == old(users)
              else r == Success(NewStudent(created.value, email, name, GenerateStudentId(draw), auth.value.id, now))
                   && users == Put(old(users), UserKey, r.value)
      ensures r.Success? ==> r.value.role == Student && r.value.coinBalance == 0
                             && r.value.teacherId == Authenticate(header, provider)
                             && r.value.studentId.Some? && |r.value.studentId.value| == 10
                             && 1000000000 <= DecimalValue(r.value.studentId.value) <= 9999999999
    {
      var auth := Authorize(users, header, provider, {Teacher}, AddStudentDenied);
      if auth.Failure? {
        return Failure(auth.error);
      }
      var studentId := GenerateStudentId(draw);
      if created.Failure? {
        return Failure(BadRequest(created.error));
      }
      var student := NewStudent(created.value, email, name, studentId, auth.value.id, now);
      PutKeepsUnique(users, UserKey, student);
      users := Put(users, UserKey, student);
      r := Success(student);
    }

    /**
     * `POST /give-coins`: a teacher adds `amount` (of either sign: the
     * handler does not check it) to the balance of the first student whose
     * id matches, and records a `received` transaction with id `txId`.
     */
    method GiveCoins(header: Option<string>, provider: string -> Option<string>,
                     studentId: string, amount: int, reason: string, txId: string, now: int)
      returns (r: Result<int, HttpError>)
      requires Valid()
      modifies this
      ensures Valid()
      ensures items == old(items)
      ensures var auth := Authorize(old(users), header, provider, {Teacher}, GiveCoinsDenied);
              var i := StudentIndex(old(users), studentId);
              if auth.Failure? then
                r == Failure(auth.error) && users == old(users) && transactions == old(transactions)
              else if i == |old(users)| then
                r == Failure(NotFound("Student not found")) && users == old(users) && transactions == old(transactions)
              else
                r == Success(old(users)[i].coinBalance + amount)
                && users == old(users)[i := old(users)[i].(coinBalance := old(users)[i].coinBalance + amount)]
                && transactions == Put(old(transactions), TxKey,
                                       Transaction(txId, Some(studentId), amount, Received(auth.value.id, reason), now))
      ensures r.Success? && Get(old(transactions), TxKey, txId).None? ==> |transactions| == |old(transactions)| + 1
      ensures r.Success? && Get(old(transactions), TxKey, txId).None? ==>
                LedgerSum(transactions, studentId) == LedgerSum(old(transactions), studentId) + amount
    {
      var auth := Authorize(users, header, provider, {Teacher}, GiveCoinsDenied);
      if auth.Failure? {
        return Failure(auth.error);
      }
      var i := StudentIndex(users, studentId);
      if i == |users| {
        return Failure(NotFound("Student not found"));
      }
      r := Success(users[i].coinBalance + amount);
      Credit(i, amount, Transaction(txId, Some(studentId), amount, Received(auth.value.id, reason), now));
    }

    /**
     * The writes of a grant that passed its checks: the balance of the
     * student at position `i` rises by `amount`, and `tx` is recorded.
     */
    method Credit(i: nat, amount: int, tx: Transaction)
      requires Valid() && i < |users|
      modifies this
      ensures Valid()
      ensures items == old(items)
      ensures users == old(users)[i := old(users)[i].(coinBalance := old(users)[i].coinBalance + amount)]
      ensures transactions == Put(old(transactions), TxKey, tx)
      ensures Get(old(transactions), TxKey, tx.id).None? ==> |transactions| == |old(transactions)| + 1
      ensures Get(old(transactions), TxKey, tx.id).None? && tx.studentId.Some? ==>
                LedgerSum(transactions, tx.studentId.value) == LedgerSum(old(transactions), tx.studentId.value) + tx.amount
    {
      var student := users[i].(coinBalance := users[i].coinBalance + amount);
      PutAt(users, UserKey, i, student);
      PutKeepsUnique(users, UserKey, student);
      users := Put(users, UserKey, student);
      PutKeepsUnique(transactions, TxKey, tx);
      if Get(transactions, TxKey, tx.id).None? {
        PutNew(transactions, TxKey, tx);
        if tx.studentId.Some? {
          RecordMovesLedger(transactions, tx, tx.studentId.value);
        }
      }
      transactions := Put(transactions, TxKey, tx);
    }

    /**
     * `POST /buy-item`: a student buys item `itemId`. The checks are those of
     * `CheckPurchase`; on success the buyer's balance drops by the price and
     * one `purchase` transaction with id `txId` is written. The item record
     * itself is left as it was.
     */
    method BuyItem(header: Option<string>, provider: string -> Option<string>,
                   itemId: string, txId: string, now: int)
      returns (r: Result<int, HttpError>)
      requires Valid()
      modifies this
      ensures Valid()
      ensures items == old(items)
      ensures var c := CheckPurchase(old(users), old(items), header, provider, itemId);
              if c.Failure? then
                r == Failure(c.error) && users == old(users) && transactions == old(transactions)
              else
                var buyer := c.value.0;
                var item := c.value.1;
                r == Success(buyer.coinBalance - item.price)
                && users == Put(old(users), UserKey, buyer.(coinBalance := buyer.coinBalance - item.price))
                && transactions == Put(old(transactions), TxKey,
                                       Transaction(txId, buyer.studentId, -item.price, Purchase(itemId, item.name), now))
                && (buyer.studentId.Some? && Get(old(transactions), TxKey, txId).None? ==>
                      LedgerSum(transactions, buyer.studentId.value) == LedgerSum(old(transactions), buyer.studentId.value) - item.price)
    {
      var c := CheckPurchase(users, items, header, provider, itemId);
      if c.Failure? {
        return Failure(c.error);
      }
      Charge(c.value.0, c.value.1, itemId, txId, now);
      r := Success(c.value.0.coinBalance - c.value.1.price);
    }

    /** The writes of a purchase that passed its checks: the debit and its transaction. */
    method Charge(buyer: User, item: Item, itemId: string, txId: string, now: int)
      requires Valid()
      modifies this
      ensures Valid()
      ensures items == old(items)
      ensures users == Put(old(users), UserKey, buyer.(coinBalance := buyer.coinBalance - item.price))
      ensures transactions == Put(old(transactions), TxKey,
                                  Transaction(txId, buyer.studentId, -item.price, Purchase(itemId, item.name), now))
      ensures Get(old(transactions), TxKey, txId).None? && buyer.studentId.Some? ==>
                LedgerSum(transactions, buyer.studentId.value) == LedgerSum(old(transactions), buyer.studentId.value) - item.price
    {
      PutKeepsUnique(users, UserKey, buyer.(coinBalance := buyer.coinBalance - item.price));
      users := Put(users, UserKey, buyer.(coinBalance := buyer.coinBalance - item.price));
      var tx := Transaction(txId, buyer.studentId, -item.price, Purchase(itemId, item.name), now);
      if Get(transactions, TxKey, txId).None? && buyer.studentId.Some? {
        RecordMovesLedger(transactions, tx, buyer.studentId.value);
      }
      PutKeepsUnique(transactions, TxKey, tx);
      transactions := Put(transactions, TxKey, tx);
    }

    /**
     * `POST /add-item`: an admin adds a catalog item with id `itemId`; a
     * request without `available` stores an available item.
     */
    method AddItem(header: Option<string>, provider: string -> Option<string>,
                   name: string, price: int, description: string, available: Option<bool>,
                   itemId: string, now: int)
      returns (r: Result<Item, HttpError>)
      requires Valid()
      modifies this
      ensures Valid()
      ensures users == old(users) && transactions == old(transactions)
      ensures var auth := Authorize(old(users), header, provider, {Admin}, AddItemDenied);
              if auth.Failure? then r == Failure(auth.error) && items == old(items)
              else r == Success(Item(itemId, name, price, description, available.GetOr(true), now))
                   && items == Put(old(items), ItemKey, r.value)
      ensures r.Success? && available.None? ==> r.value.available
    {
      var auth := Authorize(users, header, provider, {Admin}, AddItemDenied);
      if auth.Failure? {
        return Failure(auth.error);
      }
      var item := Item(itemId, name, price, description, if available.Some? then available.value else true, now);
      PutKeepsUnique(items, ItemKey, item);
      items := Put(items, ItemKey, item);
      r := Success(item);
    }

    /** `GET /transactions/:studentId`: any authenticated caller; nothing is written. */
    function GetTransactions(header: Option<string>, provider: string -> Option<string>,
                             studentId: string): (r: Result<seq<Transaction>, HttpError>)
      reads this
      ensures r.Failure? <==> Authenticate(header, provider).None?
      ensures r.Failure? ==> r.error == Unauthorized
      ensures r.Success? ==> r.value == StudentTransactions(transactions, studentId)
      ensures r.Success? ==> SortedDesc(r.value, Timestamp)
                             && forall t :: t in r.value <==> t in transactions && t.studentId == Some(studentId)
      ensures r.Success? ==> forall t :: multiset(r.value)[t] ==
                               if t.studentId == Some(studentId) then multiset(transactions)[t] else 0
    {
      if Authenticate(header, provider).None? then Failure(Unauthorized)
      else Success(StudentTransactions(transactions, studentId))
    }

    /** `GET /students`: teachers and admins only. */
    function GetStudents(header: Option<string>, provider: string -> Option<string>): (r: Result<seq<User>, HttpError>)
      reads this
      ensures var auth := Authorize(users, header, provider, {Teacher, Admin}, StudentsDenied);
              r.Failure? <==> auth.Failure?
      ensures r == Failure(Unauthorized) <==> Authenticate(header, provider).None?
      ensures r.Failure? && r.error != Unauthorized ==> r.error == Forbidden(StudentsDenied)
      ensures r.Success? ==> r.value == StudentRecords(users)
      ensures r.Success? ==> forall u :: u in r.value <==> u in users && u.role == Student
      ensures r.Success? ==> forall u :: multiset(r.value)[u] == if u.role == Student then multiset(users)[u] else 0
    {
      var auth := Authorize(users, header, provider, {Teacher, Admin}, StudentsDenied);
      if auth.Failure? then Failure(auth.error) else Success(StudentRecords(users))
    }

    /** `POST /login-student`: no credential needed. */
    function LoginStudent(studentId: string): (r: Result<User, HttpError>)
      reads this
      ensures r == StudentLogin(users, studentId)
      ensures r.Success? ==> r.value == users[StudentIndex(users, studentId)] && r.value.studentId == Some(studentId)
      ensures r.Failure? <==> forall u :: u in users ==> u.studentId != Some(studentId)
      ensures r.Failure? ==> r.error == NotFound("Student ID not found")
    {
      StudentLogin(users, studentId)
    }
  }
}
