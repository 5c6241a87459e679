/** The context label the chat widget is given, chosen from the current path by
    the first matching rule. */
module ChatWidgetWrapper {
  import opened Js
  import DashboardHeader

  /** `getContext()`; the meeting-detail prefix is tested before the exact
      paths. */
  function GetContext(path: Option<string>): (r: string)
    ensures r == "Meeting Detail" <==> path.Some? && StartsWith(path.value, DashboardHeader.MeetingPrefix)
    ensures r == "Meetings Archive" <==> path == Some("/dashboard/meetings")
    ensures r == "Action Center" <==> path == Some("/dashboard/tasks")
    ensures r == "Schedule" <==> path == Some("/dashboard/calendar")
    ensures r == "Intelligence" <==> path == Some("/dashboard/insights")
    ensures r == "Knowledge Base" <==> path == Some("/dashboard/knowledge")
    ensures r == "Settings" <==> path == Some("/dashboard/settings")
    ensures r == "General Workspace" <==>
      path.None? || (!StartsWith(path.value, DashboardHeader.MeetingPrefix) && path.value !in DashboardHeader.ExactPaths)
  {
    DashboardHeader.ExactPathsOutsidePrefix();
    if path.Some? && StartsWith(path.value, DashboardHeader.MeetingPrefix) then "Meeting Detail"
    else if path == Some("/dashboard/meetings") then "Meetings Archive"
    else if path == Some("/dashboard/tasks") then "Action Center"
    else if path == Some("/dashboard/calendar") then "Schedule"
    else if path == Some("/dashboard/insights") then "Intelligence"
    else if path == Some("/dashboard/knowledge") then "Knowledge Base"
    else if path == Some("/dashboard/settings") then "Settings"
    else "General Workspace"
  }

  /** The chat widget is given a specific context exactly where the header shows
      a specific title, that is, one other than "Overview" and "Dashboard". */
  lemma ContextAgreesWithTitle(path: Option<string>)
    ensures GetContext(path) != "General Workspace" <==>
            DashboardHeader.GetTitle(path) != "Overview" && DashboardHeader.GetTitle(path) != "Dashboard"
  {
    DashboardHeader.ExactPathsOutsidePrefix();
  }
}
