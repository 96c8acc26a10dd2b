/**
 * The dashboard's status badge. It knows four statuses only, so it colours
 * "On The Way" and "Arrived" gray where the request-status page does not.
 */
module Dashboard {
  import opened Documents
  import RequestStatusPage

  /** The statuses the dashboard colours. */
  const DashboardStatuses: set<string> := {Pending, Accepted, Completed, Cancelled}

  /** The badge classes of a request's status in the history list. */
  function GetStatusColor(status: string): (badge: string)
    ensures badge == RequestStatusPage.GrayBadge <==> status !in DashboardStatuses
  {
    if status == Pending then RequestStatusPage.YellowBadge
    else if status == Accepted then RequestStatusPage.BlueBadge
    else if status == Completed then RequestStatusPage.GreenBadge
    else if status == Cancelled then RequestStatusPage.RedBadge
    else RequestStatusPage.GrayBadge
  }

  /** The colour of each status the dashboard knows. */
  lemma StatusColorTable()
    ensures GetStatusColor(Pending) == RequestStatusPage.YellowBadge
    ensures GetStatusColor(Accepted) == RequestStatusPage.BlueBadge
    ensures GetStatusColor(Completed) == RequestStatusPage.GreenBadge
    ensures GetStatusColor(Cancelled) == RequestStatusPage.RedBadge
  {
  }

  /**
   * The two pages colour a status differently exactly for "On The Way" and
   * "Arrived", which the dashboard shows gray.
   */
  lemma AgreesWithRequestStatusPage(status: string)
    ensures GetStatusColor(status) != RequestStatusPage.GetStatusColor(status) <==>
            status == OnTheWay || status == Arrived
    ensures status == OnTheWay || status == Arrived ==> GetStatusColor(status) == RequestStatusPage.GrayBadge
  {
  }
}
