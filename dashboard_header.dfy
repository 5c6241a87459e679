/** The dashboard header's title, chosen from the current path by the first
    matching rule. */
module DashboardHeader {
  import opened Js

  const MeetingPrefix := "/dashboard/meetings/"

  /** The paths given a title by exact comparison, other than `/dashboard`
      itself. */
  const ExactPaths: seq<string> := ["/dashboard/meetings", "/dashboard/tasks", "/dashboard/calendar",
                                    "/dashboard/insights", "/dashboard/knowledge", "/dashboard/settings"]

  /** No exactly compared path, `/dashboard` included, falls under the
      meeting-detail prefix. */
  lemma ExactPathsOutsidePrefix()
    ensures forall p :: p in ExactPaths ==> !StartsWith(p, MeetingPrefix)
    ensures !StartsWith("/dashboard", MeetingPrefix)
  {
    assert "/dashboard/knowledge"[11] != MeetingPrefix[11];
  }

  /** `getTitle()`; `path` is absent before the router knows it. */
  function GetTitle(path: Option<string>): (r: string)
    ensures r == "Overview" <==> path == Some("/dashboard")
    ensures r == "Deep Dive" <==> path.Some? && StartsWith(path.value, MeetingPrefix)
    ensures r == "Meetings archive" <==> path == Some("/dashboard/meetings")
    ensures r == "Action center" <==> path == Some("/dashboard/tasks")
    ensures r == "Schedule" <==> path == Some("/dashboard/calendar")
    ensures r == "Intelligence" <==> path == Some("/dashboard/insights")
    ensures r == "Knowledge base" <==> path == Some("/dashboard/knowledge")
    ensures r == "Settings" <==> path == Some("/dashboard/settings")
    ensures r == "Dashboard" <==>
      path.None? || (path.value != "/dashboard" && !StartsWith(path.value, MeetingPrefix) && path.value !in ExactPaths)
  {
    ExactPathsOutsidePrefix();
    if path == Some("/dashboard") then "Overview"
    else if path.Some? && StartsWith(path.value, MeetingPrefix) then "Deep Dive"
    else if path == Some("/dashboard/meetings") then "Meetings archive"
    else if path == Some("/dashboard/tasks") then "Action center"
    else if path == Some("/dashboard/calendar") then "Schedule"
    else if path == Some("/dashboard/insights") then "Intelligence"
    else if path == Some("/dashboard/knowledge") then "Knowledge base"
    else if path == Some("/dashboard/settings") then "Settings"
    else "Dashboard"
  }
}
