/** The interview page `/interview/<token>`: two lookups of the contributor
    by token (one for the submitted-preferences marker, one for the whole
    row), then either an error, a redirect back to the preferences step, the
    "already completed" notice or the chat. */
module Interview {
  import opened Text
  import opened Store
  import opened Routes

  const NoTokenError := "No token provided."
  const InterviewLinkError := "Invalid interview link."

  /** What the page shows. A redirect leaves it on its loading screen. */
  datatype Screen =
    | Loading(redirect: Option<Path>)
    | Error(message: string)
    | AlreadyCompleted
    | ChatFor(contributor: Contributor)

  /** `fetchContributor` followed by the render decision. `prefsRow` is the
      first lookup (None when nothing came back), `row` the second (None when
      it failed). */
  function Show(token: Option<string>, prefsRow: Option<Contributor>, row: Option<Contributor>): (s: Screen)
    ensures !Truthy(token) ==> s == Error(NoTokenError)
    ensures Truthy(token) && (prefsRow.None? || !Truthy(prefsRow.value.prefsSubmittedAt)) ==>
              s == Loading(Some(Contribute(token.value)))
    ensures Truthy(token) && prefsRow.Some? && Truthy(prefsRow.value.prefsSubmittedAt) ==>
              s == (if row.None? then Error(InterviewLinkError)
                    else if row.value.interviewCompleted then AlreadyCompleted
                    else ChatFor(row.value))
  {
    if !Truthy(token) then Error(NoTokenError)
    else if prefsRow.None? || !Truthy(prefsRow.value.prefsSubmittedAt) then Loading(Some(Contribute(token.value)))
    else if row.None? then Error(InterviewLinkError)
    else if row.value.interviewCompleted then AlreadyCompleted
    else ChatFor(row.value)
  }

  /** The chat is shown only to a contributor who has submitted preferences
      and not completed the interview. */
  lemma ChatOnlyWhenDue(token: Option<string>, prefsRow: Option<Contributor>, row: Option<Contributor>)
    requires Show(token, prefsRow, row).ChatFor?
    ensures prefsRow.Some? && Truthy(prefsRow.value.prefsSubmittedAt)
    ensures row.Some? && !row.value.interviewCompleted && Show(token, prefsRow, row).contributor == row.value
  {
  }

  /** The preferences gate comes first: a contributor without submitted
      preferences is redirected even when the interview is marked complete,
      and the second lookup does not matter. */
  lemma PrefsGateFirst(token: string, c: Contributor, row: Option<Contributor>, other: Option<Contributor>)
    requires token != "" && !Truthy(c.prefsSubmittedAt)
    ensures Show(Some(token), Some(c), row) == Loading(Some(Contribute(token)))
    ensures Show(Some(token), Some(c), row) == Show(Some(token), Some(c), other)
  {
  }
}
