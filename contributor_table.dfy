/** The administrator's contributor table: the status badge derived from a
    contributor's progress markers, the entry link handed out, and the
    confirmation in front of a delete. */
module ContributorTable {
  import opened Text
  import opened Store
  import opened Routes

  datatype Status = Completed | InInterview | FillingPrefs | NotStarted {
    function Label(): string {
      match this
      case Completed => "Completed"
      case InInterview => "In Interview"
      case FillingPrefs => "Filling Prefs"
      case NotStarted => "Not Started"
    }

    /** How far along the flow the status is. */
    function Rank(): nat {
      match this
      case NotStarted => 0
      case FillingPrefs => 1
      case InInterview => 2
      case Completed => 3
    }
  }

  /** `getStatus`: the first marker that is set, checked from the last step
      backwards, decides the badge. */
  function GetStatus(c: Contributor): (s: Status)
    ensures s == Completed <==> c.interviewCompleted
    ensures s == InInterview <==> !c.interviewCompleted && Truthy(c.prefsSubmittedAt)
    ensures s == FillingPrefs <==>
              !c.interviewCompleted && !Truthy(c.prefsSubmittedAt) && Truthy(c.acknowledgedAt)
    ensures s == NotStarted <==>
              !c.interviewCompleted && !Truthy(c.prefsSubmittedAt) && !Truthy(c.acknowledgedAt)
  {
    if c.interviewCompleted then Completed
    else if Truthy(c.prefsSubmittedAt) then InInterview
    else if Truthy(c.acknowledgedAt) then FillingPrefs
    else NotStarted
  }

  /** The badge reads only the three progress markers: the session, the
      draft, the feedback and the other columns play no part. */
  lemma StatusReadsOnlyMarkers(c: Contributor, d: Contributor)
    requires c.interviewCompleted == d.interviewCompleted
    requires c.prefsSubmittedAt == d.prefsSubmittedAt && c.acknowledgedAt == d.acknowledgedAt
    ensures GetStatus(c) == GetStatus(d)
  {
  }

  /** Every update the contributor-facing screens send, stamped with a real
      (non-empty) time, moves the badge forward or leaves it where it was. */
  lemma StatusNeverMovesBack(c: Contributor, p: Patch)
    requires p.PrefsPatch? ==> p.submittedAt != Some("")
    requires p.AcknowledgePatch? ==> p.acknowledgedAt != ""
    ensures GetStatus(Apply(c, p)).Rank() >= GetStatus(c).Rank()
  {
  }

  /** `copyToClipboard`: the link is the site origin followed by the entry
      path for the token. */
  function EntryLink(origin: string, token: string): (link: string)
    ensures link == origin + Url(Character(token))
    ensures link[|origin| + |"/character/"|..] == token
  {
    origin + "/character/" + token
  }

  /** The delete button: `onDelete(id, name)` is called only when the
      administrator confirmed. */
  function DeleteRequest(c: Contributor, confirmed: bool): (r: Option<(string, string)>)
    ensures r.Some? <==> confirmed
    ensures r.Some? ==> r.value == (c.id, c.name)
  {
    if confirmed then Some((c.id, c.name)) else None
  }
}
