/** The query-string parameters the alarm service builds for the alarm REST endpoints
    (src/service/AlarmService.ts) from the query records of src/model/alarm.ts and
    src/model/page.ts.

    A parameter dictionary is a `map` from key to value; the source builds it by
    successive conditional writes to one object, which become chained map updates.
    A property whose value is `undefined` is modelled as absent. */
module AlarmParams {
  import opened Wrappers

  datatype Direction = ASC | DESC

  datatype SortOrder = SortOrder(property: string, direction: Direction)

  /** `TimePageLink`: a `PageLink` with an optional time window. */
  datatype TimePageLink = TimePageLink(
    pageSize: int,
    page: int,
    textSearch: Option<string>,
    sortOrder: Option<SortOrder>,
    startTime: Option<int>,
    endTime: Option<int>)

  datatype AlarmSeverity = CRITICAL | MAJOR | MINOR | WARNING | INDETERMINATE

  datatype AlarmStatus = ACTIVE_UNACK | ACTIVE_ACK | CLEARED_UNACK | CLEARED_ACK

  datatype AlarmSearchStatus = ANY | ACTIVE | CLEARED | ACK | UNACK

  datatype EntityId = EntityId(entityType: string, id: string)

  datatype AlarmQuery = AlarmQuery(
    affectedEntityId: Option<EntityId>,
    pageLink: TimePageLink,
    searchStatus: Option<AlarmSearchStatus>,
    status: Option<AlarmStatus>,
    assigneeId: Option<EntityId>,
    fetchOriginator: Option<bool>)

  datatype AlarmQueryV2 = AlarmQueryV2(
    affectedEntityId: Option<EntityId>,
    pageLink: TimePageLink,
    typeList: Option<seq<string>>,
    statusList: Option<seq<AlarmSearchStatus>>,
    severityList: Option<seq<AlarmSeverity>>,
    assigneeId: Option<EntityId>)

  /** A parameter value: a number, a string, a boolean, or the `sortOrder` object the
      spread of a page link copies. */
  datatype ParamValue = Num(n: int) | Text(s: string) | Flag(b: bool) | Sort(order: SortOrder)

  /** The parameter names the service writes: each is its query-string name with the
      first letter in upper case, except `SortOrderKey`, which is `sortOrder`. */
  datatype Key =
    | PageSize | Page | TextSearch | SortProperty | SortOrderKey | StartTime | EndTime
    | SearchStatus | Status | AssigneeId | FetchOriginator | TypeList | StatusList | SeverityList

  type Params = map<Key, ParamValue>

  /** The string value of each enum member (every one is non-empty, so truthy). */
  function DirectionName(d: Direction): string
  {
    match d
    case ASC => "ASC"
    case DESC => "DESC"
  }

  function SeverityName(s: AlarmSeverity): string
  {
    match s
    case CRITICAL => "CRITICAL"
    case MAJOR => "MAJOR"
    case MINOR => "MINOR"
    case WARNING => "WARNING"
    case INDETERMINATE => "INDETERMINATE"
  }

  function StatusName(s: AlarmStatus): string
  {
    match s
    case ACTIVE_UNACK => "ACTIVE_UNACK"
    case ACTIVE_ACK => "ACTIVE_ACK"
    case CLEARED_UNACK => "CLEARED_UNACK"
    case CLEARED_ACK => "CLEARED_ACK"
  }

  function SearchStatusName(s: AlarmSearchStatus): string
  {
    match s
    case ANY => "ANY"
    case ACTIVE => "ACTIVE"
    case CLEARED => "CLEARED"
    case ACK => "ACK"
    case UNACK => "UNACK"
  }

  function SeverityNames(l: seq<AlarmSeverity>): (r: seq<string>)
    ensures |r| == |l| && forall i | 0 <= i < |l| :: r[i] == SeverityName(l[i])
  {
    seq(|l|, i requires 0 <= i < |l| => SeverityName(l[i]))
  }

  function SearchStatusNames(l: seq<AlarmSearchStatus>): (r: seq<string>)
    ensures |r| == |l| && forall i | 0 <= i < |l| :: r[i] == SearchStatusName(l[i])
  {
    seq(|l|, i requires 0 <= i < |l| => SearchStatusName(l[i]))
  }

  /** `Array.prototype.join(',')`. */
  function Join(xs: seq<string>): string
  {
    if xs == [] then ""
    else if |xs| == 1 then xs[0]
    else xs[0] + "," + Join(xs[1..])
  }

  /** Splitting at every comma, as the server reads a list parameter back. */
  function Split(s: string): (r: seq<string>)
    ensures |r| >= 1
  {
    if s == [] then [""]
    else
      var rest := Split(s[1..]);
      if s[0] == ',' then [""] + rest else [[s[0]] + rest[0]] + rest[1..]
  }

  /** A piece without commas is read back whole, up to the next comma. */
  lemma {:induction false} SplitPiece(x: string, t: string)
    requires ',' !in x
    ensures Split(x) == [x]
    ensures Split(x + "," + t) == [x] + Split(t)
  {
    if x != [] {
      assert ',' !in x[1..];
      SplitPiece(x[1..], t);
      assert (x + "," + t)[1..] == x[1..] + "," + t;
      assert [x[0]] + x[1..] == x;
    } else {
      assert x + "," + t == [','] + t;
    }
  }

  /** A non-empty list of strings without commas is recovered from its join. */
  lemma {:induction false} JoinSplit(xs: seq<string>)
    requires xs != []
    requires forall i | 0 <= i < |xs| :: ',' !in xs[i]
    ensures Split(Join(xs)) == xs
  {
    if |xs| == 1 {
      SplitPiece(xs[0], "");
    } else {
      JoinSplit(xs[1..]);
      SplitPiece(xs[0], Join(xs[1..]));
      assert xs == [xs[0]] + xs[1..];
    }
  }

  /** Enum values never contain a comma, so every non-empty enum list is recovered. */
  lemma StatusListRoundTrip(l: seq<AlarmSearchStatus>)
    requires l != []
    ensures Split(Join(SearchStatusNames(l))) == SearchStatusNames(l)
  {
    forall i | 0 <= i < |l| ensures ',' !in SearchStatusNames(l)[i] {
      match l[i]
      case ANY =>
      case ACTIVE =>
      case CLEARED =>
      case ACK =>
      case UNACK =>
    }
    JoinSplit(SearchStatusNames(l));
  }

  lemma SeverityListRoundTrip(l: seq<AlarmSeverity>)
    requires l != []
    ensures Split(Join(SeverityNames(l))) == SeverityNames(l)
  {
    forall i | 0 <= i < |l| ensures ',' !in SeverityNames(l)[i] {
      match l[i]
      case CRITICAL =>
      case MAJOR =>
      case MINOR =>
      case WARNING =>
      case INDETERMINATE =>
    }
    JoinSplit(SeverityNames(l));
  }

  /** The value of key `k` in `p`, if it is there. */
  function Lookup(p: Params, k: Key): (r: Option<ParamValue>)
    ensures r.Some? <==> k in p
    ensures r.Some? ==> r.value == p[k]
  {
    if k in p then Some(p[k]) else None
  }

  /** `{ ...pageLink }`: every property the page link has, whatever its value. */
  function PageLinkSpread(pl: TimePageLink): Params
  {
    var p0 := map[PageSize := Num(pl.pageSize), Page := Num(pl.page)];
    var p1 := if pl.textSearch.Some? then p0[TextSearch := Text(pl.textSearch.value)] else p0;
    var p2 := if pl.sortOrder.Some? then p1[SortOrderKey := Sort(pl.sortOrder.value)] else p1;
    var p3 := if pl.startTime.Some? then p2[StartTime := Num(pl.startTime.value)] else p2;
    if pl.endTime.Some? then p3[EndTime := Num(pl.endTime.value)] else p3
  }

  /** The guarded page-link writes both versions share (a truthy text search, the sort
      property and direction in place of the sort object, a truthy start and end
      time). */
  function WithPageLink(p: Params, pl: TimePageLink): Params
  {
    var p1 := if Truthy(pl.textSearch) then p[TextSearch := Text(pl.textSearch.value)] else p;
    var p2 := if pl.sortOrder.Some? then
        p1[SortProperty := Text(pl.sortOrder.value.property)]
          [SortOrderKey := Text(DirectionName(pl.sortOrder.value.direction))]
      else p1;
    var p3 := if NonZero(pl.startTime) then p2[StartTime := Num(pl.startTime.value)] else p2;
    if NonZero(pl.endTime) then p3[EndTime := Num(pl.endTime.value)] else p3
  }

  /** The status filter: the search status if given, else the status if given. */
  function WithStatusFilter(p: Params, searchStatus: Option<AlarmSearchStatus>, status: Option<AlarmStatus>): Params
  {
    if searchStatus.Some? then p[SearchStatus := Text(SearchStatusName(searchStatus.value))]
    else if status.Some? then p[Status := Text(StatusName(status.value))]
    else p
  }

  /** The assignee is sent by its id string. */
  function WithAssignee(p: Params, assignee: Option<EntityId>): Params
  {
    if assignee.Some? then p[AssigneeId := Text(assignee.value.id)] else p
  }

  /** `toAlarmQueryParams`. */
  function ToAlarmQueryParams(q: AlarmQuery): Params
  {
    var pl := q.pageLink;
    var p0 := PageLinkSpread(pl)[PageSize := Num(pl.pageSize)][Page := Num(pl.page)];
    var p1 := WithPageLink(p0, pl);
    var p2 := WithStatusFilter(p1, q.searchStatus, q.status);
    var p3 := WithAssignee(p2, q.assigneeId);
    if q.fetchOriginator.Some? then p3[FetchOriginator := Flag(q.fetchOriginator.value)] else p3
  }

  /** `toAlarmQueryV2Params`. */
  function ToAlarmQueryV2Params(q: AlarmQueryV2): Params
  {
    var pl := q.pageLink;
    var p0 := map[PageSize := Num(pl.pageSize), Page := Num(pl.page)];
    var p1 := WithPageLink(p0, pl);
    var p2 := WithLists(p1, q.typeList, q.statusList, q.severityList);
    WithAssignee(p2, q.assigneeId)
  }

  /** The three filter lists, each joined with commas when given. */
  function WithLists(p: Params, typeList: Option<seq<string>>, statusList: Option<seq<AlarmSearchStatus>>,
                     severityList: Option<seq<AlarmSeverity>>): Params
  {
    var p1 := if typeList.Some? then p[TypeList := Text(Join(typeList.value))] else p;
    var p2 := if statusList.Some? then p1[StatusList := Text(Join(SearchStatusNames(statusList.value)))] else p1;
    if severityList.Some? then p2[SeverityList := Text(Join(SeverityNames(severityList.value)))] else p2
  }

  /** The params of `getHighestAlarmSeverity`. */
  function HighestSeverityParams(searchStatus: Option<AlarmSearchStatus>, status: Option<AlarmStatus>): Params
  {
    WithStatusFilter(map[], searchStatus, status)
  }

  /** The spread copies each page-link property that is present. */
  lemma SpreadLookup(pl: TimePageLink, k: Key)
    ensures Lookup(PageLinkSpread(pl), k) ==
      if k == PageSize then Some(Num(pl.pageSize))
      else if k == Page then Some(Num(pl.page))
      else if k == TextSearch then (if pl.textSearch.Some? then Some(Text(pl.textSearch.value)) else None)
      else if k == SortOrderKey then (if pl.sortOrder.Some? then Some(Sort(pl.sortOrder.value)) else None)
      else if k == StartTime then (if pl.startTime.Some? then Some(Num(pl.startTime.value)) else None)
      else if k == EndTime then (if pl.endTime.Some? then Some(Num(pl.endTime.value)) else None)
      else None
  {
  }

  /** The guarded writes replace only the keys whose guard holds. */
  lemma WithPageLinkLookup(p: Params, pl: TimePageLink, k: Key)
    ensures Lookup(WithPageLink(p, pl), k) ==
      if k == TextSearch && Truthy(pl.textSearch) then Some(Text(pl.textSearch.value))
      else if k == SortProperty && pl.sortOrder.Some? then Some(Text(pl.sortOrder.value.property))
      else if k == SortOrderKey && pl.sortOrder.Some? then Some(Text(DirectionName(pl.sortOrder.value.direction)))
      else if k == StartTime && NonZero(pl.startTime) then Some(Num(pl.startTime.value))
      else if k == EndTime && NonZero(pl.endTime) then Some(Num(pl.endTime.value))
      else Lookup(p, k)
  {
  }

  lemma WithStatusFilterLookup(p: Params, searchStatus: Option<AlarmSearchStatus>, status: Option<AlarmStatus>, k: Key)
    ensures Lookup(WithStatusFilter(p, searchStatus, status), k) ==
      if k == SearchStatus && searchStatus.Some? then Some(Text(SearchStatusName(searchStatus.value)))
      else if k == Status && searchStatus.None? && status.Some? then Some(Text(StatusName(status.value)))
      else Lookup(p, k)
  {
  }

  lemma WithListsLookup(p: Params, typeList: Option<seq<string>>, statusList: Option<seq<AlarmSearchStatus>>,
                        severityList: Option<seq<AlarmSeverity>>, k: Key)
    ensures Lookup(WithLists(p, typeList, statusList, severityList), k) ==
      if k == TypeList && typeList.Some? then Some(Text(Join(typeList.value)))
      else if k == StatusList && statusList.Some? then Some(Text(Join(SearchStatusNames(statusList.value))))
      else if k == SeverityList && severityList.Some? then Some(Text(Join(SeverityNames(severityList.value))))
      else Lookup(p, k)
  {
  }

  lemma WithAssigneeLookup(p: Params, assignee: Option<EntityId>, k: Key)
    ensures Lookup(WithAssignee(p, assignee), k) ==
      if k == AssigneeId && assignee.Some? then Some(Text(assignee.value.id)) else Lookup(p, k)
  {
  }

  /** What the first version sends under each key, key by key. Every page-link
      property that is present is sent, even an empty text search or a zero time,
      because the spread copies it before the truthiness guards run; a sort order is
      sent as its property and its direction, never as the object. The search status
      wins over the status, so at most one of them is sent. `fetchOriginator` is sent
      whenever it is given, `false` included. No list is sent. */
  function V1Entry(q: AlarmQuery, k: Key): Option<ParamValue>
  {
    var pl := q.pageLink;
    match k
    case PageSize => Some(Num(pl.pageSize))
    case Page => Some(Num(pl.page))
    case TextSearch => if pl.textSearch.Some? then Some(Text(pl.textSearch.value)) else None
    case SortProperty => if pl.sortOrder.Some? then Some(Text(pl.sortOrder.value.property)) else None
    case SortOrderKey => if pl.sortOrder.Some? then Some(Text(DirectionName(pl.sortOrder.value.direction))) else None
    case StartTime => if pl.startTime.Some? then Some(Num(pl.startTime.value)) else None
    case EndTime => if pl.endTime.Some? then Some(Num(pl.endTime.value)) else None
    case SearchStatus => if q.searchStatus.Some? then Some(Text(SearchStatusName(q.searchStatus.value))) else None
    case Status =>
      if q.searchStatus.None? && q.status.Some? then Some(Text(StatusName(q.status.value))) else None
    case AssigneeId => if q.assigneeId.Some? then Some(Text(q.assigneeId.value.id)) else None
    case FetchOriginator => if q.fetchOriginator.Some? then Some(Flag(q.fetchOriginator.value)) else None
    case TypeList => None
    case StatusList => None
    case SeverityList => None
  }

  /** What the second version sends under each key. Only explicit keys are written:
      the text search and the times only when truthy, each list joined with commas in
      list order whenever it is given (an empty list is truthy too), and never a
      status, a search status or `fetchOriginator`. */
  function V2Entry(q: AlarmQueryV2, k: Key): Option<ParamValue>
  {
    var pl := q.pageLink;
    match k
    case PageSize => Some(Num(pl.pageSize))
    case Page => Some(Num(pl.page))
    case TextSearch => if Truthy(pl.textSearch) then Some(Text(pl.textSearch.value)) else None
    case SortProperty => if pl.sortOrder.Some? then Some(Text(pl.sortOrder.value.property)) else None
    case SortOrderKey => if pl.sortOrder.Some? then Some(Text(DirectionName(pl.sortOrder.value.direction))) else None
    case StartTime => if NonZero(pl.startTime) then Some(Num(pl.startTime.value)) else None
    case EndTime => if NonZero(pl.endTime) then Some(Num(pl.endTime.value)) else None
    case SearchStatus => None
    case Status => None
    case AssigneeId => if q.assigneeId.Some? then Some(Text(q.assigneeId.value.id)) else None
    case FetchOriginator => None
    case TypeList => if q.typeList.Some? then Some(Text(Join(q.typeList.value))) else None
    case StatusList =>
      if q.statusList.Some? then Some(Text(Join(SearchStatusNames(q.statusList.value)))) else None
    case SeverityList =>
      if q.severityList.Some? then Some(Text(Join(SeverityNames(q.severityList.value)))) else None
  }

  /** The first version's dictionary holds exactly the entries `V1Entry` describes. */
  lemma V1Entries(q: AlarmQuery)
    ensures forall k :: Lookup(ToAlarmQueryParams(q), k) == V1Entry(q, k)
  {
    var pl := q.pageLink;
    var p0 := PageLinkSpread(pl)[PageSize := Num(pl.pageSize)][Page := Num(pl.page)];
    var p1 := WithPageLink(p0, pl);
    var p2 := WithStatusFilter(p1, q.searchStatus, q.status);
    var p3 := WithAssignee(p2, q.assigneeId);
    forall k ensures Lookup(ToAlarmQueryParams(q), k) == V1Entry(q, k) {
      SpreadLookup(pl, k);
      WithPageLinkLookup(p0, pl, k);
      WithStatusFilterLookup(p1, q.searchStatus, q.status, k);
      WithAssigneeLookup(p2, q.assigneeId, k);
    }
  }

  /** The second version's dictionary holds exactly the entries `V2Entry` describes. */
  lemma V2Entries(q: AlarmQueryV2)
    ensures forall k :: Lookup(ToAlarmQueryV2Params(q), k) == V2Entry(q, k)
  {
    var pl := q.pageLink;
    var p0 := map[PageSize := Num(pl.pageSize), Page := Num(pl.page)];
    var p1 := WithPageLink(p0, pl);
    var p2 := WithLists(p1, q.typeList, q.statusList, q.severityList);
    forall k ensures Lookup(ToAlarmQueryV2Params(q), k) == V2Entry(q, k) {
      WithPageLinkLookup(p0, pl, k);
      WithListsLookup(p1, q.typeList, q.statusList, q.severityList, k);
      WithAssigneeLookup(p2, q.assigneeId, k);
      match k
      case PageSize | Page | TextSearch | SortProperty | SortOrderKey | StartTime | EndTime =>
      case SearchStatus | Status | FetchOriginator =>
      case AssigneeId | TypeList | StatusList | SeverityList =>
    }
  }

  /** No parameter value is an object: the spread's sort object is always replaced. */
  lemma NoObjectParams(q: AlarmQuery)
    ensures forall k | k in ToAlarmQueryParams(q) :: !ToAlarmQueryParams(q)[k].Sort?
  {
    V1Entries(q);
    forall k | k in ToAlarmQueryParams(q) ensures !ToAlarmQueryParams(q)[k].Sort? {
      assert Lookup(ToAlarmQueryParams(q), k) == V1Entry(q, k);
    }
  }

  lemma NoObjectParamsV2(q: AlarmQueryV2)
    ensures forall k | k in ToAlarmQueryV2Params(q) :: !ToAlarmQueryV2Params(q)[k].Sort?
  {
    V2Entries(q);
    forall k | k in ToAlarmQueryV2Params(q) ensures !ToAlarmQueryV2Params(q)[k].Sort? {
      assert Lookup(ToAlarmQueryV2Params(q), k) == V2Entry(q, k);
    }
  }

  /** The highest-severity request holds the search status if given, else the status
      if given, else nothing: exactly the status entries of an alarm list query with
      the same search status and status. */
  lemma HighestSeverityAgreesWithQuery(q: AlarmQuery)
    ensures forall k ::
              Lookup(HighestSeverityParams(q.searchStatus, q.status), k) ==
              (if k == SearchStatus || k == Status then V1Entry(q, k) else None)
  {
    forall k ensures Lookup(HighestSeverityParams(q.searchStatus, q.status), k) ==
      (if k == SearchStatus || k == Status then V1Entry(q, k) else None)
    {
      WithStatusFilterLookup(map[], q.searchStatus, q.status, k);
    }
  }

  /** The two versions send the same page-link and assignee entries, except that a
      falsy text search or time that is given is sent by the first version only. */
  lemma PageLinkAgreement(q: AlarmQuery, q2: AlarmQueryV2)
    requires q.pageLink == q2.pageLink && q.assigneeId == q2.assigneeId
    ensures forall k | k in {PageSize, Page, SortProperty, SortOrderKey, AssigneeId} ::
      V1Entry(q, k) == V2Entry(q2, k)
    ensures forall k | k in {TextSearch, StartTime, EndTime} ::
      V2Entry(q2, k).Some? ==> V1Entry(q, k) == V2Entry(q2, k)
    ensures V1Entry(q, TextSearch).Some? && V2Entry(q2, TextSearch).None? <==> q.pageLink.textSearch == Some("")
    ensures V1Entry(q, StartTime).Some? && V2Entry(q2, StartTime).None? <==> q.pageLink.startTime == Some(0)
    ensures V1Entry(q, EndTime).Some? && V2Entry(q2, EndTime).None? <==> q.pageLink.endTime == Some(0)
  {
  }
}
