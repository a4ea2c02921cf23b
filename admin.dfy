/** The admin dashboard: four tabs, each backed by one list endpoint, a
    fetch that routes its result into the active tab's list or the error
    field, tab counts, and the display defaults of the tables. */
module Admin {
  import opened Common
  import opened Json
  import opened Http

  const FAILED_TO_LOAD := "Failed to load data"
  const NO_DATE := "-"

  datatype Tab = Members | Donations | Events | Messages

  /** The endpoint each tab reads. */
  function Endpoint(tab: Tab): string {
    match tab
    case Members => "/api/members"
    case Donations => "/api/donations"
    case Events => "/api/events"
    case Messages => "/api/contact"
  }

  /** The tab an endpoint belongs to. */
  function TabOf(endpoint: string): (t: Option<Tab>)
    ensures t.Some? ==> Endpoint(t.value) == endpoint
  {
    if endpoint == "/api/members" then Some(Members)
    else if endpoint == "/api/donations" then Some(Donations)
    else if endpoint == "/api/events" then Some(Events)
    else if endpoint == "/api/contact" then Some(Messages)
    else None
  }

  /** Each tab has its own endpoint: the mapping is inverted by TabOf. */
  lemma EndpointsDistinct(t: Tab)
    ensures TabOf(Endpoint(t)) == Some(t)
  {
  }

  /** The status shown for a row whose status is missing or empty. */
  function DefaultStatus(tab: Tab): string {
    match tab
    case Members => "pending"
    case Donations => "pending"
    case Events => "registered"
    case Messages => "unread"
  }

  /** `row.status || '<default>'` in the table cells. */
  function StatusLabel(tab: Tab, row: map<string, Json>): (text: Json)
    ensures "status" in row && Truthy(row["status"]) ==> text == row["status"]
    ensures ("status" !in row || !Truthy(row["status"])) ==> text == Str(DefaultStatus(tab))
    ensures Truthy(text)
  {
    Or(if "status" in row then row["status"] else Undefined, Str(DefaultStatus(tab)))
  }

  /** `formatDate`: a missing or empty date shows as '-'; any other date is
      handed to the locale formatter `localized`. */
  function FormatDate(date: Option<string>, localized: string -> string): (r: string)
    ensures date.None? || date.value == "" ==> r == NO_DATE
    ensures date.Some? && date.value != "" ==> r == localized(date.value)
  {
    if date.None? || date.value == "" then NO_DATE else localized(date.value)
  }

  /** `result.data || []` for the list routes, whose data is an array. */
  function ListOf(data: Json): (items: seq<Json>)
    ensures data.Arr? ==> items == data.items
    ensures !Truthy(data) ==> items == []
  {
    if data.Arr? then data.items else []
  }

  /** Where a fetch result goes: into the error field, or into a list. */
  datatype Routing = ShowError(error: Json) | Store(items: seq<Json>)

  /** The routing of `fetchData` for a parsed reply body; `Threw` covers a
      failed request or an unparsable body. */
  function Route(reply: Call<Json>): (r: Routing)
    ensures reply.Threw? ==> r == ShowError(Str(FAILED_TO_LOAD))
    ensures reply.Returned? && reply.value in {Undefined, Null} ==> r == ShowError(Str(FAILED_TO_LOAD))
    ensures reply.Returned? && Truthy(OptGet(reply.value, "error")) ==>
              r == ShowError(OptGet(reply.value, "error"))
    ensures reply.Returned? && reply.value !in {Undefined, Null} &&
            !Truthy(OptGet(reply.value, "error")) ==>
              r == Store(ListOf(OptGet(reply.value, "data")))
  {
    match reply
    case Threw(_) => ShowError(Str(FAILED_TO_LOAD))
    case Returned(result) =>
      match Get(result, "error")
      case None => ShowError(Str(FAILED_TO_LOAD))
      case Some(e) =>
        if Truthy(e) then ShowError(e) else Store(ListOf(OptGet(result, "data")))
  }

  /** Against the list routes: rows land in the list, a non-empty error
      message is shown, and an empty one clears the list instead. */
  lemma RouteOfListResponse(query: Call<SelectOutcome>)
    ensures var r := Route(Returned(ListResponse(query).body));
      && (query.Returned? && query.value.Selected? && query.value.data.Arr? ==>
            r == Store(query.value.data.items))
      && (query.Returned? && query.value.SelectFailed? && query.value.message != "" ==>
            r == ShowError(Str(query.value.message)))
      && (query.Returned? && query.value.SelectFailed? && query.value.message == "" ==>
            r == Store([]))
      && (query.Threw? ==> r == ShowError(Str(INTERNAL_ERROR)))
  {
    var body := ListResponse(query).body;
    if query.Returned? && query.value.Selected? {
      assert "error" !in body.fields;
    }
  }

  /** The loading flag and error field right before the request is sent. */
  datatype FetchStart = FetchStart(loading: bool, error: Json)

  class Dashboard {
    var activeTab: Tab
    var members: seq<Json>
    var donations: seq<Json>
    var events: seq<Json>
    var messages: seq<Json>
    var loading: bool
    /** The error shown, `Null` when there is none. */
    var error: Json

    constructor ()
      ensures activeTab == Members && loading && error == Null
      ensures members == [] && donations == [] && events == [] && messages == []
    {
      activeTab := Members;
      members, donations, events, messages := [], [], [], [];
      loading := true;
      error := Null;
    }

    function List(tab: Tab): seq<Json>
      reads this
    {
      match tab
      case Members => members
      case Donations => donations
      case Events => events
      case Messages => messages
    }

    /** The count of a tab in the tab bar. */
    function Count(tab: Tab): nat
      reads this
    {
      |List(tab)|
    }

    /** The count badge is shown only for a non-empty list. */
    function ShowsBadge(tab: Tab): (shown: bool)
      reads this
      ensures shown <==> List(tab) != []
    {
      Count(tab) > 0
    }

    method SelectTab(tab: Tab)
      modifies this`activeTab
      ensures activeTab == tab
    {
      activeTab := tab;
    }

    /** `fetchData` for the active tab; `reply` is the parsed reply body. */
    method FetchData(reply: Call<Json>) returns (endpoint: string, ghost atRequest: FetchStart)
      modifies this
      ensures endpoint == Endpoint(activeTab) && activeTab == old(activeTab)
      ensures atRequest == FetchStart(true, Null)
      ensures !loading
      ensures Route(reply).ShowError? ==>
        error == Route(reply).error && forall t :: List(t) == old(List(t))
      ensures Route(reply).Store? ==>
        && error == Null
        && List(activeTab) == Route(reply).items
        && forall t | t != activeTab :: List(t) == old(List(t))
      // the tab bar then counts the stored rows on the active tab and nothing new elsewhere
      ensures Route(reply).Store? ==> Count(activeTab) == |Route(reply).items|
      ensures forall t | t != activeTab :: Count(t) == old(Count(t))
    {
      loading := true;
      error := Null;
      atRequest := FetchStart(loading, error);
      endpoint := Endpoint(activeTab);
      match Route(reply) {
        case ShowError(e) =>
          error := e;
        case Store(items) =>
          match activeTab {
            case Members => members := items;
            case Donations => donations := items;
            case Events => events := items;
            case Messages => messages := items;
          }
      }
      loading := false;
    }
  }
}
