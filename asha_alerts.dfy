/** The ASHA worker's alert list (client/src/pages/AshaAlerts.jsx): the
    status and priority filters that make up the list's query, the actions
    offered on an alert by its status, and the colour and icon shown for a
    priority. The two filters are the state of `AlertFilters`; every change
    of a filter fetches the list again with the new query. */
module AshaAlerts {
  import opened Common

  /** The query parameters, in the order they are appended. */
  function QueryParams(status: string, priority: string): (params: seq<(string, string)>)
    ensures ("status", status) in params <==> status != ""
    ensures ("priority", priority) in params <==> priority != ""
    ensures |params| == (if status != "" then 1 else 0) + (if priority != "" then 1 else 0)
    ensures status != "" ==> params[0] == ("status", status)
  {
    (if status != "" then [("status", status)] else [])
    + (if priority != "" then [("priority", priority)] else [])
  }

  class AlertFilters {
    var filterStatus: string
    var filterPriority: string

    /** The list opens on active alerts of every priority. */
    constructor ()
      ensures filterStatus == "Active" && filterPriority == ""
      ensures Query() == [("status", "Active")]
    {
      filterStatus := "Active";
      filterPriority := "";
    }

    /** The query the list is fetched with. */
    function Query(): seq<(string, string)>
      reads this
    {
      QueryParams(filterStatus, filterPriority)
    }

    /** Choosing a status; "All" is the empty value and drops the status
        from the query. Returns the query of the refetch. */
    method SetFilterStatus(status: string) returns (query: seq<(string, string)>)
      modifies this
      ensures filterStatus == status && filterPriority == old(filterPriority)
      ensures query == QueryParams(status, old(filterPriority))
    {
      filterStatus := status;
      query := Query();
    }

    /** Choosing a priority. Returns the query of the refetch. */
    method SetFilterPriority(priority: string) returns (query: seq<(string, string)>)
      modifies this
      ensures filterPriority == priority && filterStatus == old(filterStatus)
      ensures query == QueryParams(old(filterStatus), priority)
    {
      filterPriority := priority;
      query := Query();
    }
  }

  datatype AlertAction = Acknowledge | Resolve

  /** The status buttons on an alert: an active alert can be acknowledged or
      resolved, an acknowledged one only resolved, any other none. */
  function Actions(status: string): (r: seq<AlertAction>)
    ensures Acknowledge in r <==> status == "Active"
    ensures Resolve in r <==> status == "Active" || status == "Acknowledged"
    ensures |r| <= 2
  {
    if status == "Active" then [Acknowledge, Resolve]
    else if status == "Acknowledged" then [Resolve]
    else []
  }

  /** Acting on an alert moves it forward only: a resolved or dismissed
      alert offers nothing, and an acknowledged alert can still be resolved
      but not acknowledged again. */
  lemma ActionsMoveForward(status: string)
    ensures status == "Resolved" || status == "Dismissed" ==> Actions(status) == []
    ensures Acknowledge !in Actions("Acknowledged") && Resolve in Actions("Acknowledged")
  {
  }

  const DefaultColour := "bg-gray-100 text-gray-800 border-gray-300"

  /** `getPriorityColor`: total, with the grey style for Low and for any
      other value. */
  function PriorityColour(priority: string): (c: string)
    ensures priority !in {"Critical", "High", "Medium"} ==> c == DefaultColour
    ensures priority in {"Critical", "High", "Medium"} ==> c != DefaultColour
  {
    match priority
    case "Critical" => "bg-red-100 text-red-800 border-red-300"
    case "High" => "bg-orange-100 text-orange-800 border-orange-300"
    case "Medium" => "bg-yellow-100 text-yellow-800 border-yellow-300"
    case "Low" => DefaultColour
    case _ => DefaultColour
  }

  /** The three highlighted priorities each have a colour of their own. */
  lemma PriorityColoursDistinct(p: string, q: string)
    requires p in {"Critical", "High", "Medium"} && q in {"Critical", "High", "Medium"}
    requires p != q
    ensures PriorityColour(p) != PriorityColour(q)
  {
  }

  const DefaultIcon := "📌"

  /** `getPriorityIcon`: total, with a pin for any value outside the four
      priorities. */
  function PriorityIcon(priority: string): (i: string)
    ensures priority !in {"Critical", "High", "Medium", "Low"} <==> i == DefaultIcon
  {
    match priority
    case "Critical" => "🚨"
    case "High" => "⚠️"
    case "Medium" => "⚡"
    case "Low" => "ℹ️"
    case _ => DefaultIcon
  }

  /** The four priorities are told apart by their icons. */
  lemma PriorityIconsDistinct(p: string, q: string)
    requires p in {"Critical", "High", "Medium", "Low"} && q in {"Critical", "High", "Medium", "Low"}
    requires p != q
    ensures PriorityIcon(p) != PriorityIcon(q)
  {
  }
}
