/** How the screens fit together: the row each contributor-facing step writes
    is the row the next visit's decisions read. */
module Flow {
  import opened Text
  import opened Store
  import Routes
  import AllocationPreferences
  import CharacterAccess
  import Interview
  import AlgorithmReview
  import ContributorTable

  /** After a submitted preferences form the entry link leads to the
      interview, the interview page no longer sends the contributor back, and
      the badge reads "In Interview" (or "Completed"). */
  lemma SubmitOpensInterview(c: Contributor, token: string, d: AllocationPreferences.Draft, now: string)
    requires token != "" && now != ""
    ensures var r := Apply(c, PrefsPatch(AllocationPreferences.SubmitPrefs(d), Some(now)));
      CharacterAccess.CheckAndRedirect(Some(token), Some(r)) == Routes.Navigation(Routes.Interview(token), true) &&
      !Interview.Show(Some(token), Some(r), Some(r)).Loading? &&
      ContributorTable.GetStatus(r).Rank() >= ContributorTable.Status.InInterview.Rank()
  {
  }

  /** Ending the interview is final: the interview page then shows only the
      "already completed" notice and the badge reads "Completed". */
  lemma EndInterviewIsFinal(c: Contributor, token: string, now: string, evidence: string)
    requires token != "" && Truthy(c.prefsSubmittedAt)
    ensures var r := Apply(c, CompletionPatch(now, evidence));
      Interview.Show(Some(token), Some(r), Some(r)) == Interview.AlreadyCompleted &&
      ContributorTable.GetStatus(r) == ContributorTable.Completed
  {
  }

  /** Once the algorithm is acknowledged the review page only redirects to
      the preferences step, whatever the session lookup returns. */
  lemma AcknowledgeClosesReview(c: Contributor, token: string, now: string, s: Option<Session>,
                                feedback: string, sessionRow: Option<Session>)
    requires token != "" && now != ""
    ensures var r := Apply(c, AlgorithmReview.ContinuePatch(now, s, feedback));
      AlgorithmReview.FetchData(Some(token), Some(r), sessionRow) == AlgorithmReview.Redirect(Routes.Contribute(token)) &&
      ContributorTable.GetStatus(r).Rank() >= ContributorTable.Status.FillingPrefs.Rank()
  {
  }
}
