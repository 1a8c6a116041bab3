// The recruiter dashboard's team activity list: the age of each entry, the
// icon for its kind, and the one entry whose details are open.

module ActivityFeed {
  import opened Wrappers
  import opened Clock
  import Discussion

  /** An entry of the list; an absent `details` is the empty text. */
  datatype Activity = Activity(id: int, kind: string, details: string, timestamp: int)

  /** This list's `formatTimeAgo`: everything is computed from the whole minutes elapsed. */
  function TimeAgo(diff: int): (a: Ago)
    ensures a == JustNow <==> diff < MinuteMs
    ensures a.Minutes? ==> a.m == diff / MinuteMs && 1 <= a.m < 60
    ensures a.Hours? ==> a.h == (diff / MinuteMs) / 60 && 1 <= a.h < 24
    ensures a.Days? ==> a.d == (diff / MinuteMs) / 1440 && a.d >= 1
  {
    var minutes := diff / MinuteMs;
    if minutes < 1 then JustNow
    else if minutes < 60 then Minutes(minutes)
    else if minutes < 1440 then Hours(minutes / 60)
    else Days(minutes / 1440)
  }

  function FormatTimeAgo(now: int, timestamp: int): string
  {
    AgoText(TimeAgo(now - timestamp))
  }

  /**
   * The dashboard's formatter, which divides whole minutes, and the lesson
   * discussion's, which divides milliseconds by each unit, agree on every
   * age, past or future.
   */
  lemma FormattersAgree(diff: int)
    ensures TimeAgo(diff) == Discussion.TimeAgo(diff)
  {
    var m := diff / MinuteMs;
    assert diff / HourMs == m / 60;
    assert diff / DayMs == m / 1440;
  }

  const KnownKinds: seq<string> := ["application", "interview", "hire", "reject", "note", "job_posted"]

  /** `getActivityIcon`, total: a kind outside the six gets the generic icon. */
  function ActivityIcon(kind: string): (icon: string)
    ensures icon == "Activity" <==> kind !in KnownKinds
  {
    match kind
    case "application" => "FileText"
    case "interview" => "Calendar"
    case "hire" => "UserCheck"
    case "reject" => "UserX"
    case "note" => "MessageSquare"
    case "job_posted" => "Plus"
    case _ => "Activity"
  }

  /** The six known kinds get six different icons. */
  lemma KnownIconsDistinct(i: nat, j: nat)
    requires i < j < |KnownKinds|
    ensures ActivityIcon(KnownKinds[i]) != ActivityIcon(KnownKinds[j])
  {
  }

  /** The list's one piece of state: which entry, if any, has its details open. */
  class Feed {
    var expandedActivity: Option<int>

    constructor ()
      ensures expandedActivity == None
    {
      expandedActivity := None;
    }

    /** The details button: it closes the open entry, or opens this one and so closes any other. */
    method ClickDetails(id: int)
      modifies this
      ensures old(expandedActivity) == Some(id) ==> expandedActivity == None
      ensures old(expandedActivity) != Some(id) ==> expandedActivity == Some(id)
    {
      expandedActivity := if expandedActivity == Some(id) then None else Some(id);
    }
  }

  /** The details panel is drawn under the open entry when it has details. */
  function DetailsShown(a: Activity, expanded: Option<int>): bool
  {
    expanded == Some(a.id) && a.details != ""
  }

  /** Two entries with different ids never both show their details. */
  lemma OneDetailsPanel(a: Activity, b: Activity, expanded: Option<int>)
    requires a.id != b.id
    ensures !(DetailsShown(a, expanded) && DetailsShown(b, expanded))
  {
  }

  /** The button reads "Show less" on the open entry and "Show details" on the others. */
  function DetailsLabel(a: Activity, expanded: Option<int>): (text: string)
    ensures text == "Show less" <==> expanded == Some(a.id)
  {
    if expanded == Some(a.id) then "Show less" else "Show details"
  }
}
