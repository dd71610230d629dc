/**
 * The database model layer: record types, pagination arithmetic, credential
 * checking, case-insensitive user lookup and the row-collecting listing queries.
 * SQL itself is external: a query is a function from its arguments to the rows
 * (or the error) the database hands back.
 */
module Models {
  import opened Base
  import opened Strings

  datatype User = User(id: int, firstName: string, lastName: string, email: string, password: string)

  datatype Customer = Customer(id: int, firstName: string, lastName: string, email: string)

  datatype Widget = Widget(id: int, name: string)

  datatype Transaction = Transaction(
    id: int, amount: int, currency: string, lastFour: string,
    expiryMonth: int, expiryYear: int, paymentIntent: string, paymentMethod: string,
    bankReturnCode: string, transactionStatusId: int)

  datatype Order = Order(
    id: int, widgetId: int, transactionId: int, customerId: int,
    statusId: int, quantity: int, amount: int,
    widget: Widget, transaction: Transaction, customer: Customer)

  /** Go's zero values of the nested records an order literal leaves unset. */
  const ZeroWidget := Widget(0, "")
  const ZeroTransaction := Transaction(0, 0, "", "", 0, 0, "", "", "", 0)
  const ZeroCustomer := Customer(0, "", "", "")

  // ---------------------------------------------------------------------------
  // Pagination

  /** First row of `page` (1-based) when pages hold `pageSize` rows. */
  function Offset(page: int, pageSize: int): (offset: int)
    ensures page == 1 ==> offset == 0
  {
    (page - 1) * pageSize
  }

  /** Consecutive pages start exactly one page size apart. */
  lemma OffsetStep(page: int, pageSize: int)
    ensures Offset(page + 1, pageSize) == Offset(page, pageSize) + pageSize
  {
    assert page * pageSize == (page - 1) * pageSize + pageSize;
  }

  /** Go's integer division, which truncates toward zero. */
  function GoQuo(a: int, b: int): (q: int)
    requires b != 0
    ensures a >= 0 && b > 0 ==> q == a / b
  {
    var q := Abs(a) / Abs(b);
    if (a < 0) != (b < 0) then -q else q
  }

  /** Go's `%`: the remainder of truncating division, with the sign of `a`. */
  function GoRem(a: int, b: int): (r: int)
    requires b != 0
    ensures a >= 0 && b > 0 ==> r == a % b
  {
    a - b * GoQuo(a, b)
  }

  function Abs(x: int): nat { if x < 0 then -x else x }

  /**
   * The number of pages: the truncated quotient of records by page size, plus
   * one when the division leaves a remainder. For a positive page size and a
   * non-negative total it is the least page count that holds every record.
   */
  function LastPage(totalRecords: int, pageSize: int): (lastPage: int)
    requires pageSize != 0
    ensures pageSize > 0 && totalRecords >= 0 ==>
              lastPage >= 0 && totalRecords <= lastPage * pageSize < totalRecords + pageSize
  {
    var lastPage := GoQuo(totalRecords, pageSize);
    assert pageSize > 0 && totalRecords >= 0 ==> totalRecords == lastPage * pageSize + GoRem(totalRecords, pageSize)
                                                  && 0 <= GoRem(totalRecords, pageSize) < pageSize
                                                  && (lastPage + 1) * pageSize == lastPage * pageSize + pageSize;
    if GoRem(totalRecords, pageSize) != 0 then lastPage + 1 else lastPage
  }

  /** With positive page size, the last page is the ceiling of records over page size. */
  lemma LastPageIsCeiling(totalRecords: int, pageSize: int)
    requires pageSize > 0 && totalRecords > 0
    ensures var lp := LastPage(totalRecords, pageSize);
            (lp - 1) * pageSize < totalRecords <= lp * pageSize
  {
    var q, r := totalRecords / pageSize, totalRecords % pageSize;
    assert totalRecords == q * pageSize + r && 0 <= r < pageSize;
    if r != 0 {
      assert (q + 1) * pageSize == q * pageSize + pageSize;
    } else {
      assert (q - 1) * pageSize == q * pageSize - pageSize;
    }
  }

  /** No records give no pages; an exact multiple of the page size adds no partial page. */
  lemma LastPageExact(k: nat, pageSize: int)
    requires pageSize > 0
    ensures LastPage(k * pageSize, pageSize) == k
  {
    var q, r := (k * pageSize) / pageSize, (k * pageSize) % pageSize;
    assert k * pageSize == q * pageSize + r && 0 <= r < pageSize;
    if q < k {
      assert k * pageSize - q * pageSize == (k - q) * pageSize;
    } else if q > k {
      assert q * pageSize - k * pageSize == (q - k) * pageSize;
    }
  }

  /**
   * Every record index falls on exactly one page between 1 and the last page:
   * record `i` (0-based) is on page `p` iff `Offset(p) <= i < Offset(p) + pageSize`.
   */
  lemma RecordOnItsPage(totalRecords: int, pageSize: int, i: int)
    requires pageSize > 0 && 0 <= i < totalRecords
    ensures var p := i / pageSize + 1;
            1 <= p <= LastPage(totalRecords, pageSize) &&
            Offset(p, pageSize) <= i < Offset(p, pageSize) + pageSize
  {
    var q := i / pageSize;
    var lp := LastPage(totalRecords, pageSize);
    LastPageIsCeiling(totalRecords, pageSize);
    assert Offset(q + 1, pageSize) == q * pageSize;
    assert q * pageSize <= i < q * pageSize + pageSize;
    MonotoneProduct(q + 1, lp, pageSize, i, totalRecords);
  }

  /** If `(a - 1) * n <= i < t <= b * n` with `n > 0`, then `a <= b`. */
  lemma MonotoneProduct(a: int, b: int, n: int, i: int, t: int)
    requires n > 0 && (a - 1) * n <= i < t <= b * n
    ensures a <= b
  {
  }

  // ---------------------------------------------------------------------------
  // Users and credentials

  /**
   * `GetUserByEmail`: the query runs with the lower-cased address.
   * `usersByEmail` is the database lookup of the user row by exact email.
   */
  function GetUserByEmail(email: string, usersByEmail: string -> Result<User, string>): (r: Result<User, string>)
    ensures ToLower(email) == email ==> r == usersByEmail(email)
  {
    usersByEmail(ToLower(email))
  }

  /** Addresses that differ only in letter case find the same user (or the same error). */
  lemma GetUserByEmailIgnoresCase(a: string, b: string, usersByEmail: string -> Result<User, string>)
    requires EqualFold(a, b)
    ensures GetUserByEmail(a, usersByEmail) == GetUserByEmail(b, usersByEmail)
  {
    ToLowerIdentifiesEqualFold(a, b);
  }

  /** What `bcrypt.CompareHashAndPassword` reports. */
  datatype Comparison = Match | Mismatch | CompareError(message: string)

  /**
   * `Authenticate(email, password)`: look up `(id, hash)` by the email exactly as
   * given (no lower-casing here), then compare.
   * `credentials` is the database lookup of id and password hash by exact email.
   */
  function Authenticate(email: string, password: string,
                        credentials: string -> Result<(int, string), string>,
                        compare: (string, string) -> Comparison): (r: Result<int, string>)
    ensures r.Ok? <==> credentials(email).Ok? && compare(credentials(email).value.1, password) == Match
    ensures r.Ok? ==> r.value == credentials(email).value.0
    ensures credentials(email).Err? ==> r == Err(credentials(email).error)
    ensures credentials(email).Ok? && compare(credentials(email).value.1, password) == Mismatch ==>
              r == Err("incorrect password")
    ensures credentials(email).Ok? && compare(credentials(email).value.1, password).CompareError? ==>
              r == Err(compare(credentials(email).value.1, password).message)
  {
    match credentials(email)
    case Err(e) => Err(e)
    case Ok((id, hashedPassword)) =>
      match compare(hashedPassword, password)
      case Mismatch => Err("incorrect password")
      case CompareError(e) => Err(e)
      case Match => Ok(id)
  }

  // ---------------------------------------------------------------------------
  // Listing queries

  /** One result row as the scan of it turns out: a scanned record or a scan error. */
  datatype Row<T> = Scanned(value: T) | ScanError(message: string)

  predicate AllScanned<T>(rows: seq<Row<T>>)
  {
    forall i :: 0 <= i < |rows| ==> rows[i].Scanned?
  }

  /** `e` is the error of the first row that failed to scan. */
  ghost predicate FirstScanError<T>(rows: seq<Row<T>>, e: string)
  {
    exists k :: 0 <= k < |rows| && AllScanned(rows[..k]) && rows[k] == ScanError(e)
  }

  /**
   * What a listing loop makes of `rows`: all scanned values in row order when
   * every row scans, otherwise the first scan error and no records.
   */
  ghost predicate CollectedFrom<T>(rows: seq<Row<T>>, r: Result<seq<T>, string>)
  {
    && (r.Ok? <==> AllScanned(rows))
    && (r.Ok? ==> |r.value| == |rows| && forall i :: 0 <= i < |rows| ==> r.value[i] == rows[i].value)
    && (r.Err? ==> FirstScanError(rows, r.error))
  }

  /**
   * The listing loop: scan each row in turn and append it, giving up with the
   * error of the first row that fails to scan.
   */
  method CollectRows<T>(rows: seq<Row<T>>) returns (r: Result<seq<T>, string>)
    ensures CollectedFrom(rows, r)
  {
    var collected: seq<T> := [];
    var i := 0;
    while i < |rows|
      invariant 0 <= i <= |rows|
      invariant AllScanned(rows[..i])
      invariant |collected| == i
      invariant forall j :: 0 <= j < i ==> collected[j] == rows[j].value
    {
      match rows[i]
      case ScanError(e) =>
        assert AllScanned(rows[..i]) && rows[i] == ScanError(e);
        return Err(e);
      case Scanned(v) =>
        collected := collected + [v];
      assert rows[..i + 1] == rows[..i] + [rows[i]];
      i := i + 1;
    }
    assert rows[..i] == rows;
    return Ok(collected);
  }

  /** `GetAllOrders(isRecurring)`: the query error, or every scanned order in row order. */
  method GetAllOrders(isRecurring: int, ordersQuery: int -> Result<seq<Row<Order>>, string>)
    returns (r: Result<seq<Order>, string>)
    ensures ordersQuery(isRecurring).Err? ==> r == Err(ordersQuery(isRecurring).error)
    ensures ordersQuery(isRecurring).Ok? ==> CollectedFrom(ordersQuery(isRecurring).value, r)
  {
    match ordersQuery(isRecurring)
    case Err(e) =>
      return Err(e);
    case Ok(rows) =>
      r := CollectRows(rows);
  }

  /** `GetAllUsers()`: the query error, or every scanned user in row order. */
  method GetAllUsers(usersQuery: Result<seq<Row<User>>, string>) returns (r: Result<seq<User>, string>)
    ensures usersQuery.Err? ==> r == Err(usersQuery.error)
    ensures usersQuery.Ok? ==> CollectedFrom(usersQuery.value, r)
  {
    match usersQuery
    case Err(e) =>
      return Err(e);
    case Ok(rows) =>
      r := CollectRows(rows);
  }

  /** Result of `GetAllOrdersPaginated`: `(orders, lastPage, totalRecords, err)`. */
  datatype PageResult =
    | PageOf(orders: seq<Order>, lastPage: int, totalRecords: int)
    | PageError(message: string)
    | DivideByZero   // `totalRecords / pageSize` with `pageSize == 0` panics

  /**
   * `GetAllOrdersPaginated(pageSize, page, isRecurring)`.
   * `pageQuery(isRecurring, limit, offset)` is the LIMIT/OFFSET select,
   * `countQuery(isRecurring)` the count of matching orders.
   */
  method GetAllOrdersPaginated(pageSize: int, page: int, isRecurring: int,
                               pageQuery: (int, int, int) -> Result<seq<Row<Order>>, string>,
                               countQuery: int -> Result<int, string>)
    returns (r: PageResult)
    ensures var rows := pageQuery(isRecurring, pageSize, Offset(page, pageSize));
            && (rows.Err? ==> r == PageError(rows.error))
            && (rows.Ok? && !AllScanned(rows.value) ==> r.PageError? && FirstScanError(rows.value, r.message))
            && (rows.Ok? && AllScanned(rows.value) && countQuery(isRecurring).Err? ==>
                  r == PageError(countQuery(isRecurring).error))
            && (r.PageOf? <==>
                  rows.Ok? && AllScanned(rows.value) && countQuery(isRecurring).Ok? && pageSize != 0)
            && (r.PageOf? ==>
                  |r.orders| == |rows.value| &&
                  (forall i :: 0 <= i < |r.orders| ==> r.orders[i] == rows.value[i].value) &&
                  r.totalRecords == countQuery(isRecurring).value &&
                  r.lastPage == LastPage(r.totalRecords, pageSize))
            && (r == DivideByZero <==>
                  rows.Ok? && AllScanned(rows.value) && countQuery(isRecurring).Ok? && pageSize == 0)
  {
    var offset := (page - 1) * pageSize;
    var rows := pageQuery(isRecurring, pageSize, offset);
    if rows.Err? {
      return PageError(rows.error);
    }
    var orders := CollectRows(rows.value);
    if orders.Err? {
      return PageError(orders.error);
    }
    var count := countQuery(isRecurring);
    if count.Err? {
      return PageError(count.error);
    }
    var totalRecords := count.value;
    if pageSize == 0 {
      return DivideByZero;
    }
    var lastPage := GoQuo(totalRecords, pageSize);
    if GoRem(totalRecords, pageSize) != 0 {
      lastPage := lastPage + 1;
    }
    return PageOf(orders.value, lastPage, totalRecords);
  }
}
