/** The booking list query planner of `getBookings` and the row filters of
    the dashboard's other booking queries.

    A request `{filter, sortBy, page}` becomes a `QueryPlan`: the select
    list, an optional filter step, an optional ordering and an optional
    inclusive row window. The backend is not modelled: its answer to the
    one query issued is a parameter (`Reply`). */
module Bookings {
  import opened Results

  /** The columns `getBookings` selects; a sort column must be one of them. */
  const BaseFields: seq<string> := [
    "id",
    "created_at",
    "startDate",
    "endDate",
    "numNights",
    "numGuests",
    "status",
    "totalPrice",
    "cabins(name)",
    "guests(fullName, email)"
  ]

  /** Sort labels shown in the UI and the column each one sorts by. */
  const SortFieldMapping: map<string, string> := map[
    "Sort by amount (high first)" := "totalPrice",
    "Sort by amount (low first)" := "totalPrice",
    "Sort by date" := "created_at",
    "Sort by date (earlier first)" := "created_at",
    "Sort by date (recent first)" := "created_at"
  ]

  const BookingsTable := "bookings"
  const DefaultDirection := "asc"
  const DefaultOperator := "eq"
  const InvalidSortPrefix := "Invalid sort field: "
  const LoadFailedMessage := "Bookings could not be loaded"
  const RowsFailedMessage := "Bookings could not get loaded"

  /** A value compared against a column: text, or a number (dates are
      modelled as ordered time stamps). */
  datatype Value = Str(s: string) | Num(n: int)

  datatype FilterSpec = FilterSpec(field: string, operator: Option<string>, value: Value)
  datatype SortSpec = SortSpec(field: string, direction: Option<string>)
  datatype QuerySpec = QuerySpec(filter: Option<FilterSpec>, sortBy: Option<SortSpec>, page: Option<int>)

  /** `sortBy` after `getBookings` has rewritten it in place. */
  datatype ResolvedSort = ResolvedSort(field: string, direction: string)

  /** `query[method](column, value)` */
  datatype FilterStep = FilterStep(operator: string, column: string, value: Value)
  /** `query.order(column, {ascending})` */
  datatype Ordering = Ordering(column: string, ascending: bool)
  /** `query.range(from, to)`: both ends inclusive. */
  datatype Window = Window(from: int, to: int)

  datatype QueryPlan = QueryPlan(
    table: string,
    columns: seq<string>,
    exactCount: bool,
    filter: Option<FilterStep>,
    order: Option<Ordering>,
    range: Option<Window>)

  /** A booking row, with the columns the filters below look at. */
  datatype Booking = Booking(
    id: int,
    createdAt: int,
    startDate: int,
    endDate: int,
    numNights: int,
    numGuests: int,
    status: string,
    totalPrice: int)

  /** What the backend answers to one select. */
  datatype Reply = ReplyError(reason: string) | ReplyRows(data: seq<Booking>, count: int)

  datatype BookingsPage = BookingsPage(data: seq<Booking>, count: int)

  /** The queries a call issued, in order, and what it returned or threw. */
  datatype BookingsRun = BookingsRun(issued: seq<QueryPlan>, result: Result<BookingsPage>)

  // ---------------------------------------------------------------------
  // getBookings
  // ---------------------------------------------------------------------

  /** `sortFieldMapping[field] || field`: a label becomes its column, any
      other value is kept as written. */
  function ResolveSortField(field: string): (column: string)
    ensures field in SortFieldMapping ==> column == "totalPrice" || column == "created_at"
    ensures field !in SortFieldMapping ==> column == field
    ensures column in BaseFields <==> field in SortFieldMapping || field in BaseFields
  {
    if field in SortFieldMapping then SortFieldMapping[field] else field
  }

  /** Which sort values survive the allow-list, and what the labels mean. */
  lemma SortFieldResolution(field: string)
    ensures (field == "Sort by amount (high first)" || field == "Sort by amount (low first)")
              ==> ResolveSortField(field) == "totalPrice"
    ensures (field == "Sort by date" || field == "Sort by date (earlier first)" || field == "Sort by date (recent first)")
              ==> ResolveSortField(field) == "created_at"
    ensures field in BaseFields ==> ResolveSortField(field) == field
    ensures ResolveSortField(field) in BaseFields <==> field in SortFieldMapping || field in BaseFields
  {
  }

  /** Checks the sort column against the allow-list and defaults the direction. */
  function ResolveSort(sortBy: SortSpec): (r: Result<ResolvedSort>)
    ensures r.Ok? <==> sortBy.field in SortFieldMapping || sortBy.field in BaseFields
    ensures r.Err? ==> r.error == InvalidSortPrefix + sortBy.field
    ensures r.Ok? ==> r.value.field in BaseFields && r.value.direction != ""
    ensures r.Ok? && !TruthyString(sortBy.direction) ==> r.value.direction == DefaultDirection
    ensures r.Ok? && TruthyString(sortBy.direction) ==> r.value.direction == sortBy.direction.value
  {
    var field := ResolveSortField(sortBy.field);
    if field !in BaseFields then Err(InvalidSortPrefix + field)
    else Ok(ResolvedSort(field, StringOr(sortBy.direction, DefaultDirection)))
  }

  /** The filter step: `filter.method || "eq"` applied to `filter.field` and `filter.value`. */
  function PlanFilter(filter: FilterSpec): (step: FilterStep)
    ensures step.column == filter.field && step.value == filter.value
    ensures step.operator != ""
    ensures TruthyString(filter.operator) ==> step.operator == filter.operator.value
    ensures !TruthyString(filter.operator) ==> step.operator == DefaultOperator
  {
    FilterStep(StringOr(filter.operator, DefaultOperator), filter.field, filter.value)
  }

  /** The inclusive row window requested for `page`, as `getBookings` computes it. */
  function PageWindow(page: int, pageSize: int): (w: Window)
    ensures w.to - w.from + 1 == pageSize
    ensures page >= 1 && pageSize >= 1 ==> w.from >= 0
  {
    var from := (page - 1) * (pageSize - 1);
    Window(from, from + pageSize - 1)
  }

  /** `getBookings` up to the point where the query is awaited. */
  function PlanQuery(spec: QuerySpec, pageSize: int): (r: Result<QueryPlan>)
    ensures r.Err? <==> spec.sortBy.Some? && ResolveSort(spec.sortBy.value).Err?
    ensures r.Err? ==> r.error == InvalidSortPrefix + spec.sortBy.value.field
    ensures r.Ok? ==> r.value.table == BookingsTable && r.value.columns == BaseFields && r.value.exactCount
    ensures r.Ok? ==> (r.value.filter.Some? <==> spec.filter.Some?)
    ensures r.Ok? && spec.filter.Some? ==> r.value.filter.value == PlanFilter(spec.filter.value)
    ensures r.Ok? ==> (r.value.order.Some? <==> spec.sortBy.Some?)
    ensures r.Ok? && spec.sortBy.Some? ==>
              var sort := ResolveSort(spec.sortBy.value).value;
              r.value.order.value == Ordering(sort.field, sort.direction == DefaultDirection)
    ensures r.Ok? ==> (r.value.range.Some? <==> spec.sortBy.Some? && TruthyNumber(spec.page))
    ensures r.Ok? && r.value.range.Some? ==> r.value.range.value == PageWindow(spec.page.value, pageSize)
  {
    var sort := if spec.sortBy.Some? then Some(ResolveSort(spec.sortBy.value)) else None;
    if sort.Some? && sort.value.Err? then
      Err(sort.value.error)
    else
      var filter := if spec.filter.Some? then Some(PlanFilter(spec.filter.value)) else None;
      var order :=
        if sort.Some? then Some(Ordering(sort.value.value.field, sort.value.value.direction == DefaultDirection))
        else None;
      var range :=
        if sort.Some? && TruthyNumber(spec.page) then Some(PageWindow(spec.page.value, pageSize))
        else None;
      Ok(QueryPlan(BookingsTable, BaseFields, true, filter, order, range))
  }

  /** `getBookings`: plan, issue the one query, map the reply. */
  function GetBookings(spec: QuerySpec, pageSize: int, reply: Reply): (run: BookingsRun)
    ensures run.issued == [] <==> PlanQuery(spec, pageSize).Err?
    ensures run.issued == [] ==> run.result == Err(InvalidSortPrefix + spec.sortBy.value.field)
    ensures run.issued != [] ==> run.issued == [PlanQuery(spec, pageSize).value]
    ensures run.issued != [] && reply.ReplyError? ==> run.result == Err(LoadFailedMessage)
    ensures run.issued != [] && reply.ReplyRows? ==> run.result == Ok(BookingsPage(reply.data, reply.count))
  {
    match PlanQuery(spec, pageSize)
    case Err(e) => BookingsRun([], Err(e))
    case Ok(plan) =>
      var result :=
        match reply
        case ReplyError(_) => Err(LoadFailedMessage)
        case ReplyRows(data, count) => Ok(BookingsPage(data, count));
      BookingsRun([plan], result)
  }

  /** A page number without a sort order leaves the query unpaginated. */
  lemma PageWithoutSortIsIgnored(spec: QuerySpec, pageSize: int)
    requires spec.sortBy.None?
    ensures PlanQuery(spec, pageSize).Ok?
    ensures PlanQuery(spec, pageSize).value.range.None?
    ensures PlanQuery(spec, pageSize).value.order.None?
  {
  }

  /** A descending request sorts descending, and so does any direction
      other than exactly "asc". */
  lemma OrderIsAscendingOnlyForAsc(spec: QuerySpec, pageSize: int)
    requires spec.sortBy.Some? && PlanQuery(spec, pageSize).Ok?
    ensures PlanQuery(spec, pageSize).value.order.value.ascending <==>
              !TruthyString(spec.sortBy.value.direction) || spec.sortBy.value.direction.value == "asc"
  {
  }

  /** Sorting by the "Sort by date" label, page 2. */
  lemma SortByDateSecondPage(pageSize: int)
    ensures var plan := PlanQuery(QuerySpec(None, Some(SortSpec("Sort by date", Some("asc"))), Some(2)), pageSize);
            && plan.Ok?
            && plan.value.order == Some(Ordering("created_at", true))
            && plan.value.range == Some(Window(pageSize - 1, 2 * pageSize - 2))
  {
  }

  // ---------------------------------------------------------------------
  // Pagination arithmetic
  // ---------------------------------------------------------------------

  /** Page k ends on the row page k+1 starts with. */
  lemma ConsecutivePagesShareARow(page: int, pageSize: int)
    ensures PageWindow(page + 1, pageSize).from == PageWindow(page, pageSize).to
  {
  }

  /** With at least two rows a page, two consecutive windows overlap in
      exactly one row. */
  lemma ConsecutivePagesOverlapByOne(page: int, pageSize: int, row: int)
    requires pageSize >= 2
    ensures var w, w' := PageWindow(page, pageSize), PageWindow(page + 1, pageSize);
            (w.from <= row <= w.to && w'.from <= row <= w'.to) <==> row == w.to
  {
    ConsecutivePagesShareARow(page, pageSize);
  }

  /** With at least two rows a page, every row is on some page. */
  lemma {:induction false} EveryRowIsOnSomePage(row: int, pageSize: int)
    requires row >= 0 && pageSize >= 2
    ensures exists page :: page >= 1 && PageWindow(page, pageSize).from <= row <= PageWindow(page, pageSize).to
  {
    var step := pageSize - 1;
    var q, m := row / step, row % step;
    var page := q + 1;
    assert row == q * step + m && 0 <= m < step;
    assert PageWindow(page, pageSize).from == q * step;
    assert page >= 1;
  }

  /** With one row a page, every page shows the first row and nothing else. */
  lemma OneRowPagesNeverAdvance(page: int)
    ensures PageWindow(page, 1) == Window(0, 0)
  {
  }

  // ---------------------------------------------------------------------
  // Row filters of the other booking queries
  // ---------------------------------------------------------------------

  /** A backend row condition, as the client library builds it. */
  datatype Cond =
    | Eq(column: string, value: Value)
    | Gte(column: string, value: Value)
    | Lte(column: string, value: Value)
    | And(left: Cond, right: Cond)
    | Or(left: Cond, right: Cond)

  function ColumnValue(b: Booking, column: string): Option<Value> {
    match column
    case "id" => Some(Num(b.id))
    case "created_at" => Some(Num(b.createdAt))
    case "startDate" => Some(Num(b.startDate))
    case "endDate" => Some(Num(b.endDate))
    case "numNights" => Some(Num(b.numNights))
    case "numGuests" => Some(Num(b.numGuests))
    case "status" => Some(Str(b.status))
    case "totalPrice" => Some(Num(b.totalPrice))
    case _ => None
  }

  /** Whether a row satisfies a condition; ordering compares numbers only. */
  predicate Holds(c: Cond, b: Booking) {
    match c
    case Eq(column, v) => ColumnValue(b, column) == Some(v)
    case Gte(column, v) =>
      var x := ColumnValue(b, column);
      x.Some? && x.value.Num? && v.Num? && x.value.n >= v.n
    case Lte(column, v) =>
      var x := ColumnValue(b, column);
      x.Some? && x.value.Num? && v.Num? && x.value.n <= v.n
    case And(l, r) => Holds(l, b) && Holds(r, b)
    case Or(l, r) => Holds(l, b) || Holds(r, b)
  }

  /** A select of matching rows with an optional ordering. */
  datatype RowQuery = RowQuery(table: string, where: Cond, order: Option<Ordering>)

  /** A check-in or a check-out today: an unconfirmed stay that starts today,
      or a checked-in stay that ends today. */
  predicate IsTodayActivity(b: Booking, today: int) {
    || (b.status == "unconfirmed" && b.startDate == today)
    || (b.status == "checked-in" && b.endDate == today)
  }

  /** The `or(and(...),and(...))` filter of `getStaysTodayActivity`, oldest booking first. */
  function TodayActivityQuery(today: int): (q: RowQuery)
    ensures q.table == BookingsTable
    ensures forall b :: Holds(q.where, b) <==> IsTodayActivity(b, today)
    ensures q.order == Some(Ordering("created_at", true))
  {
    var where := Or(And(Eq("status", Str("unconfirmed")), Eq("startDate", Num(today))),
                    And(Eq("status", Str("checked-in")), Eq("endDate", Num(today))));
    assert forall b :: Holds(where, b) <==> IsTodayActivity(b, today) by {
      forall b ensures Holds(where, b) <==> IsTodayActivity(b, today) {
        assert Holds(where.left, b) <==> b.status == "unconfirmed" && b.startDate == today;
        assert Holds(where.right, b) <==> b.status == "checked-in" && b.endDate == today;
      }
    }
    RowQuery(BookingsTable, where, Some(Ordering("created_at", true)))
  }

  /** `getBookingsAfterDate`: bookings created from `date` up to the end of today. */
  function CreatedAfterQuery(date: int, endOfToday: int): (q: RowQuery)
    ensures q.table == BookingsTable && q.order.None?
    ensures forall b :: Holds(q.where, b) <==> date <= b.createdAt <= endOfToday
  {
    RowQuery(BookingsTable, And(Gte("created_at", Num(date)), Lte("created_at", Num(endOfToday))), None)
  }

  /** `getStaysAfterDate`: stays starting from `date` up to today. */
  function StaysAfterQuery(date: int, today: int): (q: RowQuery)
    ensures q.table == BookingsTable && q.order.None?
    ensures forall b :: Holds(q.where, b) <==> date <= b.startDate <= today
  {
    RowQuery(BookingsTable, And(Gte("startDate", Num(date)), Lte("startDate", Num(today))), None)
  }

  /** The error mapping shared by the three row queries above. */
  function RowsOrError(reply: Reply): (r: Result<seq<Booking>>)
    ensures r.Err? <==> reply.ReplyError?
    ensures r.Err? ==> r.error == RowsFailedMessage
    ensures r.Ok? ==> r.value == reply.data
  {
    match reply
    case ReplyError(_) => Err(RowsFailedMessage)
    case ReplyRows(data, _) => Ok(data)
  }
}
