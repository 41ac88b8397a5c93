/** Keyset pagination over the daily reliability view: a page is read by seeking to a
    cursor key with two queries, and pages are chained through cursor tokens. */
module Paging {
  import opened Prelude
  import opened Base64Url
  import opened Cursor
  import opened Keyset
  import opened Order

  /** The collation: any strict total order on text. */
  type Collation = (Text, Text) -> bool

  /** `Unbindable` is the driver's error for text that the database cannot carry. */
  datatype Fault = BadLimit | BadCursor(error: CursorError) | Unbindable

  // ------------------------------------------------------------------ row order

  function Codes(s: string): (t: Text)
    ensures |t| == |s|
  {
    seq(|s|, i requires 0 <= i < |s| => s[i] as int)
  }

  /** The column text of a source kind. */
  function SourceName(s: SourceKind): (t: Text) {
    match s
    case NetworkMeasurement => Codes("network_measurement")
    case ServiceCheck => Codes("service_check")
  }

  /** SQL row comparison of (agent_id, endpoint_id, source_kind, probe_type). */
  predicate RestBefore(lt: Collation, a: Key, b: Key) {
    if a.agent != b.agent then lt(a.agent, b.agent)
    else if a.endpoint != b.endpoint then lt(a.endpoint, b.endpoint)
    else if a.source != b.source then lt(SourceName(a.source), SourceName(b.source))
    else lt(a.probe, b.probe)
  }

  /** Newest date first, the other columns ascending. */
  function RowOrder(lt: Collation): (Key, Key) -> bool {
    (a: Key, b: Key) => a.date > b.date || (a.date == b.date && RestBefore(lt, a, b))
  }

  lemma RowOrderTotal(lt: Collation)
    requires StrictTotal(lt)
    ensures StrictTotal(RowOrder(lt))
  {
    var o := RowOrder(lt);
    assert |SourceName(NetworkMeasurement)| != |SourceName(ServiceCheck)|;
    forall a, b | Pair(a, b) && a != b ensures o(a, b) || o(b, a) {
      Total(lt, a.agent, b.agent);
      Total(lt, a.endpoint, b.endpoint);
      Total(lt, SourceName(a.source), SourceName(b.source));
      Total(lt, a.probe, b.probe);
    }
    forall a, b, c | Triple(a, b, c) && o(a, b) && o(b, c) ensures o(a, c) {
      if a.date == b.date == c.date { RestTransitive(lt, a, b, c); }
    }
  }

  lemma RestTransitive(lt: Collation, a: Key, b: Key, c: Key)
    requires StrictTotal(lt) && RestBefore(lt, a, b) && RestBefore(lt, b, c)
    ensures RestBefore(lt, a, c)
  {
    Step(lt, a.agent, b.agent, c.agent);
    Step(lt, a.endpoint, b.endpoint, c.endpoint);
    Step(lt, SourceName(a.source), SourceName(b.source), SourceName(c.source));
    Step(lt, a.probe, b.probe, c.probe);
  }

  /** Transitivity with equal neighbours allowed; a round trip is impossible. */
  lemma Step(lt: Collation, x: Text, y: Text, z: Text)
    requires StrictTotal(lt)
    ensures lt(x, y) && lt(y, z) ==> lt(x, z) && x != z
  {
    assert Triple(x, y, z);
  }

  // ------------------------------------------------------------------ queries

  datatype Condition =
    | FromDate(day: int) | ThroughDate(day: int) | AgentIs(id: Text) | EndpointIs(id: Text)
    | SourceIs(kind: SourceKind) | ProbeIs(id: Text)
    | SameDateAfter(key: Key) | OlderThan(day: int)

  predicate Holds(lt: Collation, c: Condition, k: Key) {
    match c
    case FromDate(d) => k.date >= d
    case ThroughDate(d) => k.date <= d
    case AgentIs(v) => k.agent == v
    case EndpointIs(v) => k.endpoint == v
    case SourceIs(s) => k.source == s
    case ProbeIs(v) => k.probe == v
    case SameDateAfter(c) => k.date == c.date && RestBefore(lt, c, k)
    case OlderThan(d) => k.date < d
  }

  predicate AllHold(lt: Collation, where: seq<Condition>, k: Key) {
    forall i :: 0 <= i < |where| ==> Holds(lt, where[i], k)
  }

  function Selected(lt: Collation, table: set<Key>, where: seq<Condition>): set<Key> {
    set k | k in table && AllHold(lt, where, k)
  }

  /** SELECT ... WHERE <all conditions> ORDER BY <row order> LIMIT n. */
  function SelectQuery(lt: Collation, table: set<Key>, where: seq<Condition>, n: nat): (r: seq<Key>)
    requires StrictTotal(lt)
  {
    RowOrderTotal(lt);
    Take(Sort(RowOrder(lt), Selected(lt, table, where)), n)
  }

  function Optional<T>(v: Option<T>, wrap: T -> Condition): seq<Condition> {
    match v case None => [] case Some(x) => [wrap(x)]
  }

  /** The condition of one filter field, in the order of the program's filter table. */
  function FilterCondition(f: Filters, field: nat): seq<Condition>
    requires field < 6
  {
    match field
    case 0 => Optional(f.fromDate, d => FromDate(d))
    case 1 => Optional(f.throughDate, d => ThroughDate(d))
    case 2 => Optional(f.agent, v => AgentIs(v))
    case 3 => Optional(f.endpoint, v => EndpointIs(v))
    case 4 => Optional(f.source, s => SourceIs(s))
    case _ => Optional(f.probe, v => ProbeIs(v))
  }

  /** The first `n` filter fields agree with the row. */
  predicate MatchesUpTo(f: Filters, n: nat, k: Key) {
    && (n > 0 && f.fromDate.Some? ==> k.date >= f.fromDate.value)
    && (n > 1 && f.throughDate.Some? ==> k.date <= f.throughDate.value)
    && (n > 2 && f.agent.Some? ==> k.agent == f.agent.value)
    && (n > 3 && f.endpoint.Some? ==> k.endpoint == f.endpoint.value)
    && (n > 4 && f.source.Some? ==> k.source == f.source.value)
    && (n > 5 && f.probe.Some? ==> k.probe == f.probe.value)
  }

  /** The rows a caller asks for. */
  function Matching(table: set<Key>, f: Filters): set<Key> {
    set k | k in table && MatchesUpTo(f, 6, k)
  }

  /** One lexicographic query over the matching rows. */
  function PageOf(lt: Collation, table: set<Key>, f: Filters, cursor: Option<Key>, limit: nat): (p: Page<Key>)
    requires StrictTotal(lt)
  {
    RowOrderTotal(lt);
    FirstOf(RowOrder(lt), Matching(table, f), cursor, limit)
  }

  /** The rows that a request reads. The transaction is READ COMMITTED, so each of its two
      queries may see another state of the table: the cursor's date comes from the first,
      older dates from the second. Without a cursor there is one query. */
  function Spliced(first: set<Key>, second: set<Key>, cursor: Option<Key>): set<Key> {
    match cursor
    case None => first
    case Some(c) => (set k | k in first && k.date >= c.date) + (set k | k in second && k.date < c.date)
  }

  /** Text parameters are UTF-8 without U+0000. */
  predicate Bindable(v: Text) { forall i :: 0 <= i < |v| ==> ScalarValue(v[i]) && v[i] != 0 }

  predicate BindableKey(k: Key) { Bindable(k.agent) && Bindable(k.endpoint) && Bindable(k.probe) }

  predicate BindableFilters(f: Filters) {
    && (f.agent.Some? ==> Bindable(f.agent.value))
    && (f.endpoint.Some? ==> Bindable(f.endpoint.value))
    && (f.probe.Some? ==> Bindable(f.probe.value))
  }

  predicate Binds(f: Filters, cursor: Option<Key>) {
    BindableFilters(f) && (cursor.Some? ==> BindableKey(cursor.value))
  }

  /** The same-date seek in the first state, then the older-date seek with the remaining
      budget in the second, give the page of one lexicographic query over the rows they
      read, and has_more exactly when more of those exist. */
  method ListDaily(lt: Collation, first: set<Key>, second: set<Key>, f: Filters, cursor: Option<Key>, limit: int)
    returns (r: Result<Page<Key>, Fault>)
    requires StrictTotal(lt)
    ensures r.Err? <==> !(1 <= limit <= 200) || !Binds(f, cursor)
    ensures r.Err? ==> r.error == if 1 <= limit <= 200 then Unbindable else BadLimit
    ensures r.Ok? ==> r.value == PageOf(lt, Spliced(first, second, cursor), f, cursor, limit)
  {
    hide FirstOf, Sort, SelectQuery;
    if !(1 <= limit <= 200) {
      return Err(BadLimit);
    }
    if !Binds(f, cursor) {
      return Err(Unbindable);
    }
    var where := BuildWhere(lt, f);
    var target := limit + 1;
    var records: seq<Key>;
    if cursor.None? {
      records := SelectQuery(lt, first, where, target);
    } else {
      var c := cursor.value;
      records := SelectQuery(lt, first, where + [SameDateAfter(c)], target);
      var remaining := target - |records|;
      if remaining > 0 {
        var older := SelectQuery(lt, second, where + [OlderThan(c.date)], remaining);
        records := records + older;
      }
      TwoSeeks(lt, first, second, f, where, c, target, records);
    }
    RowOrderTotal(lt);
    RecordsGivePage(lt, Spliced(first, second, cursor), f, where, cursor, limit, records);
    return Ok(Page(Take(records, limit), |records| > limit));
  }

  method BuildWhere(lt: Collation, f: Filters) returns (where: seq<Condition>)
    ensures forall k :: AllHold(lt, where, k) <==> MatchesUpTo(f, 6, k)
  {
    where := [];
    for field := 0 to 6
      invariant forall k :: AllHold(lt, where, k) <==> MatchesUpTo(f, field, k)
    {
      var more := FilterCondition(f, field);
      forall k ensures AllHold(lt, where + more, k) <==> MatchesUpTo(f, field + 1, k) {
        AllHoldConcat(lt, where, more, k);
        FieldMatches(lt, f, field, k);
      }
      where := where + more;
    }
  }

  lemma FieldMatches(lt: Collation, f: Filters, field: nat, k: Key)
    requires field < 6
    ensures AllHold(lt, FilterCondition(f, field), k) && MatchesUpTo(f, field, k) <==> MatchesUpTo(f, field + 1, k)
  {
    var c := FilterCondition(f, field);
    assert c == [] || AllHold(lt, c, k) == Holds(lt, c[0], k);
  }

  lemma AllHoldConcat(lt: Collation, a: seq<Condition>, b: seq<Condition>, k: Key)
    ensures AllHold(lt, a + b, k) <==> AllHold(lt, a, k) && AllHold(lt, b, k)
  {
    hide Holds;
    if AllHold(lt, a + b, k) {
      forall i | 0 <= i < |a| ensures Holds(lt, a[i], k) { assert (a + b)[i] == a[i]; }
      forall i | 0 <= i < |b| ensures Holds(lt, b[i], k) { assert (a + b)[|a| + i] == b[i]; }
    }
  }

  /** The two seeks, limited one after the other, limit their concatenation - and that
      is the sorted rest of the rows they read: every row of the cursor's date precedes
      every older row. */
  lemma TwoSeeks(lt: Collation, first: set<Key>, second: set<Key>, f: Filters, where: seq<Condition>, c: Key,
                 target: nat, records: seq<Key>)
    requires StrictTotal(lt) && forall k :: AllHold(lt, where, k) <==> MatchesUpTo(f, 6, k)
    requires var same := SelectQuery(lt, first, where + [SameDateAfter(c)], target);
      records == if |same| < target then same + SelectQuery(lt, second, where + [OlderThan(c.date)], target - |same|)
                 else same
    ensures StrictTotal(RowOrder(lt))
    ensures var rows := Matching(Spliced(first, second, Some(c)), f);
      records == Take(Sort(RowOrder(lt), Rest(RowOrder(lt), rows, Some(c))), target)
  {
    hide Sort, Selected, Rest, RowOrder, Take, AllHold, Spliced;
    RowOrderTotal(lt);
    var o := RowOrder(lt);
    var same := Selected(lt, first, where + [SameDateAfter(c)]);
    var older := Selected(lt, second, where + [OlderThan(c.date)]);
    SeeksPartition(lt, first, second, f, where, c);
    SortedBlocks(lt, first, second, f, c, same, older);
    TakeConcat(Sort(o, same), Sort(o, older), target);
  }

  /** The sorted rest is the sorted first block followed by the sorted second. */
  lemma SortedBlocks(lt: Collation, first: set<Key>, second: set<Key>, f: Filters, c: Key, same: set<Key>,
                     older: set<Key>)
    requires StrictTotal(lt) && StrictTotal(RowOrder(lt))
    requires Rest(RowOrder(lt), Matching(Spliced(first, second, Some(c)), f), Some(c)) == same + older
    requires forall a, b :: a in same && b in older ==> RowOrder(lt)(a, b)
    ensures Sort(RowOrder(lt), Rest(RowOrder(lt), Matching(Spliced(first, second, Some(c)), f), Some(c)))
         == Sort(RowOrder(lt), same) + Sort(RowOrder(lt), older)
  {
    hide Sort, Rest, RowOrder, Spliced;
    var o := RowOrder(lt);
    SortLists(o, same);
    SortLists(o, older);
    ListingConcat(o, Sort(o, same), same, Sort(o, older), older);
    SortIs(o, Sort(o, same) + Sort(o, older), same + older);
  }

  lemma TakeConcat<T>(a: seq<T>, b: seq<T>, n: nat)
    ensures Take(a + b, n) == if |Take(a, n)| < n then Take(a, n) + Take(b, n - |Take(a, n)|) else Take(a, n)
  {
  }

  lemma SeeksPartition(lt: Collation, first: set<Key>, second: set<Key>, f: Filters, where: seq<Condition>, c: Key)
    requires StrictTotal(lt) && forall k :: AllHold(lt, where, k) <==> MatchesUpTo(f, 6, k)
    ensures Rest(RowOrder(lt), Matching(Spliced(first, second, Some(c)), f), Some(c))
         == Selected(lt, first, where + [SameDateAfter(c)]) + Selected(lt, second, where + [OlderThan(c.date)])
    ensures forall a, b ::
      a in Selected(lt, first, where + [SameDateAfter(c)]) && b in Selected(lt, second, where + [OlderThan(c.date)]) ==>
        RowOrder(lt)(a, b)
  {
    hide RestBefore, MatchesUpTo;
    forall k ensures AllHold(lt, where + [SameDateAfter(c)], k)
                <==> MatchesUpTo(f, 6, k) && k.date == c.date && RestBefore(lt, c, k) {
      AllHoldConcat(lt, where, [SameDateAfter(c)], k);
      assert AllHold(lt, [SameDateAfter(c)], k) == Holds(lt, [SameDateAfter(c)][0], k);
    }
    forall k ensures AllHold(lt, where + [OlderThan(c.date)], k) <==> MatchesUpTo(f, 6, k) && k.date < c.date {
      AllHoldConcat(lt, where, [OlderThan(c.date)], k);
      assert AllHold(lt, [OlderThan(c.date)], k) == Holds(lt, [OlderThan(c.date)][0], k);
    }
  }

  /** Fetching one row over the limit decides has_more. */
  lemma RecordsGivePage(lt: Collation, table: set<Key>, f: Filters, where: seq<Condition>, cursor: Option<Key>,
                        limit: nat, records: seq<Key>)
    requires StrictTotal(lt) && StrictTotal(RowOrder(lt))
    requires forall k :: AllHold(lt, where, k) <==> MatchesUpTo(f, 6, k)
    requires records ==
      if cursor.None? then SelectQuery(lt, table, where, limit + 1)
      else Take(Sort(RowOrder(lt), Rest(RowOrder(lt), Matching(table, f), cursor)), limit + 1)
    ensures Page(Take(records, limit), |records| > limit) == PageOf(lt, table, f, cursor, limit)
  {
    hide Sort, MatchesUpTo;
    var o := RowOrder(lt);
    assert Selected(lt, table, where) == Matching(table, f);
    var all := Sort(o, Rest(o, Matching(table, f), cursor));
    assert records == Take(all, limit + 1);
    assert Take(records, limit) == Take(all, limit);
  }

  // ------------------------------------------------------------------ the page in its own terms

  /** The caller asked for this row; both dates are included. */
  predicate Wanted(f: Filters, k: Key) {
    && (f.fromDate.Some? ==> f.fromDate.value <= k.date)
    && (f.throughDate.Some? ==> k.date <= f.throughDate.value)
    && (f.agent.Some? ==> f.agent.value == k.agent) && (f.endpoint.Some? ==> f.endpoint.value == k.endpoint)
    && (f.source.Some? ==> f.source.value == k.source) && (f.probe.Some? ==> f.probe.value == k.probe)
  }

  /** Later date first; on one date by agent, endpoint, source kind and probe, ascending. */
  predicate Precedes(lt: Collation, a: Key, b: Key) {
    || a.date > b.date
    || (a.date == b.date
        && (|| lt(a.agent, b.agent)
            || (a.agent == b.agent && lt(a.endpoint, b.endpoint))
            || (a.agent == b.agent && a.endpoint == b.endpoint && lt(SourceName(a.source), SourceName(b.source)))
            || (a.agent == b.agent && a.endpoint == b.endpoint && a.source == b.source && lt(a.probe, b.probe))))
  }

  /** The row is there for the taking: in the state that its query sees, wanted, and past the
      cursor. */
  predicate Due(lt: Collation, first: set<Key>, second: set<Key>, f: Filters, cursor: Option<Key>, k: Key) {
    && Wanted(f, k)
    && match cursor
       case None => k in first
       case Some(c) => Precedes(lt, c, k) && if k.date == c.date then k in first else k in second
  }

  /** A page holds due rows only, in order; a due row it leaves out comes after all of them,
      and then the page is full and says so. */
  lemma PageMeans(lt: Collation, first: set<Key>, second: set<Key>, f: Filters, cursor: Option<Key>, limit: nat)
    requires StrictTotal(lt)
    ensures var p := PageOf(lt, Spliced(first, second, cursor), f, cursor, limit);
      && (forall k :: k in p.rows ==> Due(lt, first, second, f, cursor, k))
      && (forall i, j :: 0 <= i < j < |p.rows| ==> Precedes(lt, p.rows[i], p.rows[j]))
      && (forall k :: Due(lt, first, second, f, cursor, k) && k !in p.rows ==>
            p.hasMore && |p.rows| == limit && forall j :: j in p.rows ==> Precedes(lt, j, k))
      && (p.hasMore ==> exists k :: Due(lt, first, second, f, cursor, k) && k !in p.rows)
  {
    hide Precedes, RestBefore, RowOrder, FirstOf, Wanted;
    RowOrderTotal(lt);
    var o, rows := RowOrder(lt), Matching(Spliced(first, second, cursor), f);
    var p := FirstOf(o, rows, cursor, limit);
    PageIs(o, rows, cursor, limit);
    forall k ensures k in Rest(o, rows, cursor) <==> Due(lt, first, second, f, cursor, k) {
      DueIff(lt, first, second, f, cursor, k);
    }
    forall a, b ensures o(a, b) <==> Precedes(lt, a, b) { PrecedesIff(lt, a, b); }
  }

  lemma PrecedesIff(lt: Collation, a: Key, b: Key)
    requires StrictTotal(lt)
    ensures RowOrder(lt)(a, b) <==> Precedes(lt, a, b)
  {
    Total(lt, a.agent, b.agent);
    Total(lt, a.endpoint, b.endpoint);
    Total(lt, SourceName(a.source), SourceName(b.source));
    Total(lt, a.probe, b.probe);
  }

  lemma DueIff(lt: Collation, first: set<Key>, second: set<Key>, f: Filters, cursor: Option<Key>, k: Key)
    requires StrictTotal(lt)
    ensures k in Rest(RowOrder(lt), Matching(Spliced(first, second, cursor), f), cursor)
       <==> Due(lt, first, second, f, cursor, k)
  {
    hide RestBefore, SourceName;
    if cursor.Some? { PrecedesIff(lt, cursor.value, k); }
  }

  // ------------------------------------------------------------------ chained requests

  /** What one process serves requests with. */
  datatype Server = Server(lt: Collation, sha: Fingerprint, legacy: LegacyDecoder)

  datatype Response = Response(items: seq<Key>, next: Option<Text>)

  /** Every stored row meets the response contract; otherwise the program answers 500. Its
      text is the database's, hence bindable. */
  predicate ValidTable(table: set<Key>) { forall k :: k in table ==> ValidKey(k) && BindableKey(k) }

  /** The route: decode the token, read one page, and hand out the last row's token when
      there is more to read. */
  method Daily(s: Server, first: set<Key>, second: set<Key>, f: Filters, token: Option<Text>, limit: int)
    returns (r: Result<Response, Fault>)
    requires StrictTotal(s.lt) && ValidTable(first) && ValidTable(second)
    ensures r == Respond(s, first, second, f, token, limit)
  {
    hide PageOf, Decoded, EncodeCursor, ValidKey, Spliced, BindableKey, BindableFilters;
    if !(1 <= limit <= 200) {
      return Err(BadLimit);
    }
    var cursor: Option<Key> := None;
    if token.Some? {
      var decoded := DecodeCursor(token.value, f, s.sha, s.legacy);
      if decoded.Err? {
        return Err(BadCursor(decoded.error));
      }
      cursor := Some(decoded.value);
    }
    var page := ListDaily(s.lt, first, second, f, cursor, limit);
    if page.Err? {
      return Err(page.error);
    }
    var items := page.value.rows;
    var next: Option<Text> := None;
    PageValid(s.lt, first, second, f, cursor, limit);
    if page.value.hasMore && |items| > 0 {
      next := EncodeCursor(items[|items| - 1], f, s.sha);
    }
    return Ok(Response(items, next));
  }

  function Respond(s: Server, first: set<Key>, second: set<Key>, f: Filters, token: Option<Text>, limit: int)
    : (r: Result<Response, Fault>)
    requires StrictTotal(s.lt) && ValidTable(first) && ValidTable(second)
  {
    if !(1 <= limit <= 200) then Err(BadLimit)
    else if token.None? then Asked(s, first, second, f, None, limit)
    else
      match Decoded(token.value, f, s.sha, s.legacy)
      case Err(e) => Err(BadCursor(e))
      case Ok(k) => Asked(s, first, second, f, Some(k), limit)
  }

  function Asked(s: Server, first: set<Key>, second: set<Key>, f: Filters, cursor: Option<Key>, limit: nat)
    : (r: Result<Response, Fault>)
    requires StrictTotal(s.lt) && ValidTable(first) && ValidTable(second) && 1 <= limit <= 200
  {
    if Binds(f, cursor) then Ok(Answer(s, first, second, f, cursor, limit)) else Err(Unbindable)
  }

  function Answer(s: Server, first: set<Key>, second: set<Key>, f: Filters, cursor: Option<Key>, limit: nat)
    : (r: Response)
    requires StrictTotal(s.lt) && ValidTable(first) && ValidTable(second) && 1 <= limit <= 200
  {
    var p := PageOf(s.lt, Spliced(first, second, cursor), f, cursor, limit);
    PageValid(s.lt, first, second, f, cursor, limit);
    Response(p.rows, if p.hasMore then EncodeCursor(p.rows[limit - 1], f, s.sha) else None)
  }

  lemma PageValid(lt: Collation, first: set<Key>, second: set<Key>, f: Filters, cursor: Option<Key>, limit: nat)
    requires StrictTotal(lt) && ValidTable(first) && ValidTable(second)
    ensures var p := PageOf(lt, Spliced(first, second, cursor), f, cursor, limit);
      && (p.hasMore ==> |p.rows| == limit)
      && (forall k :: k in p.rows ==> ValidKey(k) && BindableKey(k))
      && (p.hasMore && limit >= 1 ==>
            && ValidKey(p.rows[limit - 1]) && BindableKey(p.rows[limit - 1]) && ValidDate(p.rows[limit - 1].date))
  {
    RowOrderTotal(lt);
    PageRows(RowOrder(lt), Matching(Spliced(first, second, cursor), f), cursor, limit);
  }

  /** A client's request: the states of the table that its two queries see, and the limit
      asked for. */
  datatype Call = Call(first: set<Key>, second: set<Key>, limit: nat)

  predicate ValidCalls(calls: seq<Call>) {
    forall i :: 0 <= i < |calls| ==>
      ValidTable(calls[i].first) && ValidTable(calls[i].second) && 1 <= calls[i].limit <= 200
  }

  /** The rows a client collects by following tokens from the i-th request on. */
  function Follow(s: Server, f: Filters, token: Option<Text>, calls: seq<Call>, i: nat): (w: Walk<Key>)
    requires StrictTotal(s.lt) && ValidCalls(calls) && i <= |calls|
    decreases |calls| - i
  {
    if i == |calls| then Walk([], 0, false)
    else
      match Respond(s, calls[i].first, calls[i].second, f, token, calls[i].limit)
      case Err(_) => Walk([], 0, false)
      case Ok(r) =>
        if r.next.None? then Walk(r.items, 1, true)
        else
          var w := Follow(s, f, r.next, calls, i + 1);
          Walk(r.items + w.rows, w.pages + 1, w.done)
  }

  /** What a call reads when it continues after a cursor. */
  function Reading(q: Call, f: Filters): Option<Key> -> set<Key> {
    (cursor: Option<Key>) => Matching(Spliced(q.first, q.second, cursor), f)
  }

  function Requests(calls: seq<Call>, f: Filters): (reqs: seq<Request<Key>>)
    requires ValidCalls(calls)
    ensures |reqs| == |calls| && PositiveLimits(reqs)
    ensures forall i :: 0 <= i < |calls| ==> reqs[i] == Request(Reading(calls[i], f), calls[i].limit)
  {
    seq(|calls|, i requires 0 <= i < |calls| => Request(Reading(calls[i], f), calls[i].limit))
  }

  function TokenOf(s: Server, f: Filters, cursor: Option<Key>): Option<Text>
    requires cursor.Some? ==> ValidKey(cursor.value)
  {
    if cursor.None? then None else EncodeCursor(cursor.value, f, s.sha)
  }

  /** Tokens are faithful: a client that follows them reads the very pages a server would
      give that kept the cursor keys itself; with filters that the database cannot carry it
      reads none. */
  lemma {:induction false} FollowIsPages(s: Server, f: Filters, cursor: Option<Key>, calls: seq<Call>, i: nat)
    requires StrictTotal(s.lt) && StrictTotal(RowOrder(s.lt)) && ValidCalls(calls) && i <= |calls|
    requires cursor.Some? ==> ValidKey(cursor.value) && BindableKey(cursor.value)
    ensures Follow(s, f, TokenOf(s, f, cursor), calls, i)
         == if BindableFilters(f) then Pages(RowOrder(s.lt), cursor, Requests(calls, f), i) else Walk([], 0, false)
    decreases |calls| - i
  {
    hide FirstOf, EncodeCursor, Decoded, ValidKey, Matching, RowOrder, Spliced, BindableKey, BindableFilters;
    if i < |calls| {
      var q := calls[i];
      if cursor.Some? { RoundTrip(cursor.value, f, s.sha, s.legacy); }
      assert Respond(s, q.first, q.second, f, TokenOf(s, f, cursor), q.limit)
          == Asked(s, q.first, q.second, f, cursor, q.limit);
      PageValid(s.lt, q.first, q.second, f, cursor, q.limit);
      var p := PageOf(s.lt, Spliced(q.first, q.second, cursor), f, cursor, q.limit);
      if p.hasMore && BindableFilters(f) {
        var last := p.rows[q.limit - 1];
        RoundTrip(last, f, s.sha, s.legacy);
        FollowIsPages(s, f, Some(last), calls, i + 1);
      }
    }
  }

  /** The token of a key, whoever made it, is answered if and only if filters and key bind. */
  lemma AnsweredIff(s: Server, first: set<Key>, second: set<Key>, f: Filters, k: Key, limit: nat)
    requires StrictTotal(s.lt) && ValidTable(first) && ValidTable(second) && 1 <= limit <= 200 && ValidKey(k)
    ensures Respond(s, first, second, f, TokenOf(s, f, Some(k)), limit).Ok? <==> BindableFilters(f) && BindableKey(k)
  {
    hide EncodeCursor, Decoded, ValidKey, Answer, BindableKey, BindableFilters;
    RoundTrip(k, f, s.sha, s.legacy);
  }

  /** U+0000 is no white space, so an identifier of it is valid, encodes and decodes; and
      then the query raises. */
  lemma NulTokenRaises(s: Server)
    requires StrictTotal(s.lt)
    ensures exists k: Key, f: Filters ::
      ValidKey(k) && BindableFilters(f) && Respond(s, {}, {}, f, TokenOf(s, f, Some(k)), 1) == Err(Unbindable)
  {
    hide EncodeCursor, Decoded, ValidKey, Answer, BindableKey;
    var nul: Text := [0];
    var k, f := Key(1, nul, nul, ServiceCheck, nul), Filters(None, None, None, None, None, None);
    NulIsValid(k, nul);
    RoundTrip(k, f, s.sha, s.legacy);
    assert ValidKey(k) && BindableFilters(f)
        && Respond(s, {}, {}, f, TokenOf(s, f, Some(k)), 1) == Err(Unbindable);
  }

  lemma NulIsValid(k: Key, nul: Text)
    requires nul == [0] && k == Key(1, nul, nul, ServiceCheck, nul)
    ensures ValidKey(k) && !BindableKey(k)
  {
    assert !WhiteSpace(nul[0]);
  }

  /** The row matched in a state that the call read it from; a first call has one query. */
  predicate ReadBy(q: Call, f: Filters, isFirst: bool, k: Key) {
    k in Matching(q.first, f) || (!isFirst && k in Matching(q.second, f))
  }

  /** The row matched in every state that the call read. */
  predicate StayedIn(q: Call, f: Filters, k: Key) { k in Matching(q.first, f) && k in Matching(q.second, f) }

  /** Paging over a changing table. Whatever is inserted or deleted between requests, and
      between the two queries of one request, and whatever limits are asked for, the
      collected rows strictly increase in row order, so none repeats; each was, matching,
      in a state that was read; and once there is no next token, every matching row that
      stayed throughout has been collected. */
  lemma ChangingTable(s: Server, f: Filters, calls: seq<Call>)
    requires StrictTotal(s.lt) && ValidCalls(calls)
    ensures var w := Follow(s, f, None, calls, 0);
      && w.pages <= |calls|
      && Increasing(RowOrder(s.lt), w.rows)
      && (forall k :: k in w.rows ==> exists j :: 0 <= j < w.pages && ReadBy(calls[j], f, j == 0, k))
      && (w.done ==> forall k :: (forall j :: 0 <= j < w.pages ==> StayedIn(calls[j], f, k)) ==> k in w.rows)
  {
    hide RowOrder, Follow, Pages, MatchesUpTo, BindableFilters;
    RowOrderTotal(s.lt);
    var o, reqs := RowOrder(s.lt), Requests(calls, f);
    FollowIsPages(s, f, None, calls, 0);
    if !BindableFilters(f) {
      return;
    }
    var w := Pages(o, None, reqs, 0);
    WalkIncreases(o, None, reqs, 0, w);
    forall k | k in w.rows
      ensures exists j :: 0 <= j < w.pages && ReadBy(calls[j], f, j == 0, k)
    {
      WalkSound(o, None, reqs, 0, w, k);
      var j :| 0 <= j < w.pages && Read(reqs[j], j == 0, None, k);
      var c :| k in reqs[j].rows(c) && if j == 0 then c == None else c.Some?;
      assert k in Reading(calls[j], f)(c);
      assert ReadBy(calls[j], f, j == 0, k);
    }
    if w.done {
      forall k | forall j :: 0 <= j < w.pages ==> StayedIn(calls[j], f, k)
        ensures k in w.rows
      {
        forall j, c | 0 <= j < w.pages
          ensures k in reqs[j].rows(c)
        {
          assert StayedIn(calls[j], f, k);
          assert k in Reading(calls[j], f)(c);
        }
        WalkComplete(o, None, reqs, 0, w, k);
      }
    }
  }

  lemma RequestsAtRest(calls: seq<Call>, f: Filters, table: set<Key>, limit: nat)
    requires ValidCalls(calls) && forall i :: 0 <= i < |calls| ==> calls[i] == Call(table, table, limit)
    ensures AtRest(Requests(calls, f), 0, Matching(table, f), limit)
  {
    hide Matching, Spliced, ValidTable;
    forall j, c | 0 <= j < |calls|
      ensures Reading(calls[j], f)(c) == Matching(table, f)
    {
      SplicedSame(table, c);
    }
  }

  /** On a table at rest the pages concatenate to the sorted matching rows, in exactly
      max(1, ceil(n / limit)) requests; the walk ends if and only if the filters bind. */
  lemma StaticTable(s: Server, f: Filters, table: set<Key>, limit: nat, calls: seq<Call>)
    requires StrictTotal(s.lt) && ValidCalls(calls) && 1 <= limit <= 200
    requires forall i :: 0 <= i < |calls| ==> calls[i] == Call(table, table, limit)
    requires |calls| >= PagesFor(|Matching(table, f)|, limit)
    ensures StrictTotal(RowOrder(s.lt))
    ensures var w := Follow(s, f, None, calls, 0);
      && (w.done <==> BindableFilters(f))
      && (w.done ==> w.rows == Sort(RowOrder(s.lt), Matching(table, f)))
      && (w.done ==> w.pages == PagesFor(|Matching(table, f)|, limit))
  {
    hide Matching, RowOrder, Follow, Pages, Sort, PagesFor, Spliced, BindableFilters, AtRest;
    RowOrderTotal(s.lt);
    var o, reqs := RowOrder(s.lt), Requests(calls, f);
    FollowIsPages(s, f, None, calls, 0);
    RequestsAtRest(calls, f, table, limit);
    WalkAtRest(o, None, reqs, 0, Matching(table, f), limit, Pages(o, None, reqs, 0));
  }

  // ------------------------------------------------------------------ one snapshot or two

  lemma SplicedSame(table: set<Key>, cursor: Option<Key>)
    ensures Spliced(table, table, cursor) == table
  {
  }

  /** The matching rows of the cursor's date after the cursor, and the matching older ones. */
  function SameDateRows(lt: Collation, table: set<Key>, f: Filters, c: Key): set<Key> {
    set k | k in Matching(table, f) && k.date == c.date && RestBefore(lt, c, k)
  }

  function OlderRows(table: set<Key>, f: Filters, c: Key): set<Key> {
    set k | k in Matching(table, f) && k.date < c.date
  }

  lemma PageInBlocks(lt: Collation, first: set<Key>, second: set<Key>, f: Filters, c: Key, limit: nat)
    requires StrictTotal(lt) && StrictTotal(RowOrder(lt))
    ensures var same := Sort(RowOrder(lt), SameDateRows(lt, first, f, c));
      var older := Sort(RowOrder(lt), OlderRows(second, f, c));
      PageOf(lt, Spliced(first, second, Some(c)), f, Some(c), limit)
      == Page(Take(same + older, limit), |same| + |older| > limit)
  {
    hide Sort, Take;
    var same, older := SameDateRows(lt, first, f, c), OlderRows(second, f, c);
    assert Rest(RowOrder(lt), Matching(Spliced(first, second, Some(c)), f), Some(c)) == same + older by {
      hide RestBefore, MatchesUpTo;
    }
    SortedBlocks(lt, first, second, f, c, same, older);
  }

  /** When the first block fits, the page is that block and what the rest of the budget
      takes of the second. */
  lemma TakeAppend<T>(a: seq<T>, b: seq<T>, n: nat)
    requires |a| <= n
    ensures Take(a + b, n) == a + Take(b, n - |a|)
  {
  }

  lemma TakeShort<T>(a: seq<T>, b: seq<T>, n: nat)
    requires |a| > n
    ensures Take(a + b, n) == a[..n]
  {
  }

  lemma SameTail<T>(a: seq<T>, b: seq<T>, c: seq<T>)
    ensures a + b == a + c <==> b == c
  {
    assert (a + b)[|a|..] == b && (a + c)[|a|..] == c;
  }

  /** A page read over two states is the page of the first state alone if and only if the
      first query already exceeds the limit, or the older rows of both states agree on
      what is left of the page and on whether more follows. */
  lemma OneSnapshotIff(lt: Collation, first: set<Key>, second: set<Key>, f: Filters, c: Key, limit: nat)
    requires StrictTotal(lt)
    ensures StrictTotal(RowOrder(lt))
    ensures PageOf(lt, Spliced(first, second, Some(c)), f, Some(c), limit) == PageOf(lt, first, f, Some(c), limit)
       <==> var budget := limit - |SameDateRows(lt, first, f, c)|;
            budget < 0 || FirstOf(RowOrder(lt), OlderRows(second, f, c), None, budget)
                       == FirstOf(RowOrder(lt), OlderRows(first, f, c), None, budget)
  {
    hide Sort, RowOrder, Spliced, SameDateRows, OlderRows, Matching, Take, PageOf;
    RowOrderTotal(lt);
    SplicedSame(first, Some(c));
    PageInBlocks(lt, first, second, f, c, limit);
    PageInBlocks(lt, first, first, f, c, limit);
    var o := RowOrder(lt);
    var same := Sort(o, SameDateRows(lt, first, f, c));
    var one, two := Sort(o, OlderRows(first, f, c)), Sort(o, OlderRows(second, f, c));
    if |same| > limit {
      TakeShort(same, one, limit);
      TakeShort(same, two, limit);
    } else {
      TakeAppend(same, one, limit);
      TakeAppend(same, two, limit);
      SameTail(same, Take(one, limit - |same|), Take(two, limit - |same|));
    }
  }

  lemma KindAt<T>(p: T -> bool, a: seq<T>, tail: seq<T>, n: nat, i: nat)
    requires (forall x :: x in a ==> p(x)) && (forall x :: x in tail ==> !p(x))
    ensures i < |Take(a + tail, n)| ==> (p(Take(a + tail, n)[i]) <==> i < |Take(a, n)|)
  {
    assert i < |a| ==> (a + tail)[i] in a;
    assert |a| <= i < |a + tail| ==> (a + tail)[i] in tail;
  }

  /** Where two sequences go on with elements of another kind, equal beginnings of the whole
      have equal beginnings of the parts. */
  lemma FrontsAgree<T>(p: T -> bool, a: seq<T>, b: seq<T>, tail: seq<T>, n: nat)
    requires (forall x :: x in a || x in b ==> p(x)) && (forall x :: x in tail ==> !p(x))
    requires Take(a + tail, n) == Take(b + tail, n)
    ensures Take(a, n) == Take(b, n)
  {
    var x, y, whole := Take(a, n), Take(b, n), Take(a + tail, n);
    assert |x| <= |whole| && whole[..|x|] == x;
    assert |y| <= |whole| && whole[..|y|] == y;
    KindAt(p, a, tail, n, |y|);
    KindAt(p, b, tail, n, |x|);
  }

  /** Equal pages of two first blocks before one second: the first blocks give the same rows
      and agree on more, or the second block is there to be more. */
  lemma BlockPagesIff<T>(p: T -> bool, a: seq<T>, b: seq<T>, tail: seq<T>, n: nat)
    requires (forall x :: x in a || x in b ==> p(x)) && (forall x :: x in tail ==> !p(x))
    ensures Take(a + tail, n) == Take(b + tail, n) && (|a + tail| > n <==> |b + tail| > n)
       <==> Take(a, n) == Take(b, n) && ((|a| > n <==> |b| > n) || tail != [])
  {
    if Take(a + tail, n) == Take(b + tail, n) { FrontsAgree(p, a, b, tail, n); }
    if |a| > n { TakeShort(a, tail, n); } else { TakeAppend(a, tail, n); }
    if |b| > n { TakeShort(b, tail, n); } else { TakeAppend(b, tail, n); }
  }

  /** It is the page of the second state alone if and only if the rows of the cursor's date
      give the same page in both, and agree on more or are followed by an older row. */
  lemma LaterSnapshotIff(lt: Collation, first: set<Key>, second: set<Key>, f: Filters, c: Key, limit: nat)
    requires StrictTotal(lt)
    ensures StrictTotal(RowOrder(lt))
    ensures PageOf(lt, Spliced(first, second, Some(c)), f, Some(c), limit) == PageOf(lt, second, f, Some(c), limit)
       <==> var seen := FirstOf(RowOrder(lt), SameDateRows(lt, first, f, c), None, limit);
            var now := FirstOf(RowOrder(lt), SameDateRows(lt, second, f, c), None, limit);
            seen.rows == now.rows && (seen.hasMore == now.hasMore || OlderRows(second, f, c) != {})
  {
    hide Sort, RowOrder, Spliced, RestBefore, MatchesUpTo, Take, PageOf;
    RowOrderTotal(lt);
    SplicedSame(second, Some(c));
    PageInBlocks(lt, first, second, f, c, limit);
    PageInBlocks(lt, second, second, f, c, limit);
    var o := RowOrder(lt);
    var a, b := SameDateRows(lt, first, f, c), SameDateRows(lt, second, f, c);
    var older := OlderRows(second, f, c);
    SortLists(o, a);
    SortLists(o, b);
    SortLists(o, older);
    BlockPagesIff((k: Key) => k.date == c.date, Sort(o, a), Sort(o, b), Sort(o, older), limit);
  }

  /** A page of one row shows the least row of the rest. */
  lemma ShowsLeast(lt: Collation, table: set<Key>, f: Filters, c: Key, k: Key)
    requires StrictTotal(lt) && StrictTotal(RowOrder(lt))
    requires IsLeast(RowOrder(lt), k, Rest(RowOrder(lt), Matching(table, f), Some(c)))
    ensures PageOf(lt, table, f, Some(c), 1).rows == [k]
  {
    hide FirstOf, RowOrder, Matching;
    var o := RowOrder(lt);
    var rows := PageOf(lt, table, f, Some(c), 1).rows;
    PageIs(o, Matching(table, f), Some(c), 1);
    assert |Rest(o, Matching(table, f), Some(c))| >= 1;
    assert rows[0] in rows;
    if rows[0] != k { Trans(o, k, rows[0], k); }
  }

  /** A commit between the two queries can give a page of neither state: the cursor's date
      has a new row that the first query missed, and the second query shows what follows. */
  lemma CommitBetweenQueries(lt: Collation)
    requires StrictTotal(lt)
    ensures exists first: set<Key>, second: set<Key>, f: Filters, c: Key ::
      && PageOf(lt, Spliced(first, second, Some(c)), f, Some(c), 1) != PageOf(lt, first, f, Some(c), 1)
      && PageOf(lt, Spliced(first, second, Some(c)), f, Some(c), 1) != PageOf(lt, second, f, Some(c), 1)
  {
    hide FirstOf;
    var zero: Text, one: Text := [0], [1];
    Total(lt, zero, one);
    var (a, b) := if lt(zero, one) then (zero, one) else (one, zero);
    var f := Filters(None, None, None, None, None, None);
    var c := Key(10, a, a, ServiceCheck, a);
    var w, x, y := c.(date := 8), c.(agent := b), c.(date := 9);
    RowOrderTotal(lt);
    var o := RowOrder(lt);
    assert Spliced({w}, {x, y}, Some(c)) == {y};
    assert Rest(o, Matching({y}, f), Some(c)) == {y};
    assert Rest(o, Matching({w}, f), Some(c)) == {w};
    assert Rest(o, Matching({x, y}, f), Some(c)) == {x, y};
    ShowsLeast(lt, {y}, f, c, y);
    ShowsLeast(lt, {w}, f, c, w);
    ShowsLeast(lt, {x, y}, f, c, x);
    assert PageOf(lt, Spliced({w}, {x, y}, Some(c)), f, Some(c), 1) != PageOf(lt, {w}, f, Some(c), 1);
  }
}
