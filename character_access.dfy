/** The entry link `/character/<token>`: it looks at one column of the
    contributor and forwards to the interview or to the preferences step. It
    never writes. */
module CharacterAccess {
  import opened Text
  import opened Store
  import opened Routes

  /** `checkAndRedirect`. `row` is the lookup of the contributor by token,
      None when nothing (or an error) came back. */
  function CheckAndRedirect(token: Option<string>, row: Option<Contributor>): (n: Navigation)
    ensures !Truthy(token) ==> n == Navigation(Home, false)
    ensures Truthy(token) && row.Some? && Truthy(row.value.prefsSubmittedAt) ==>
              n == Navigation(Interview(token.value), true)
    ensures Truthy(token) && (row.None? || !Truthy(row.value.prefsSubmittedAt)) ==>
              n == Navigation(Contribute(token.value), true)
  {
    if !Truthy(token) then Navigation(Home, false)
    else if row.Some? && Truthy(row.value.prefsSubmittedAt) then Navigation(Interview(token.value), true)
    else Navigation(Contribute(token.value), true)
  }

  /** Only two targets exist for a token, and the review step is not one of
      them: a contributor with a session and algorithm text who has not
      acknowledged it is still sent to the preferences step. */
  lemma NeverToReview(token: Option<string>, row: Option<Contributor>)
    ensures !CheckAndRedirect(token, row).to.Review?
    ensures Truthy(token) ==>
              CheckAndRedirect(token, row).to in {Interview(token.value), Contribute(token.value)}
  {
  }

  /** The decision depends on `allocation_prefs_submitted_at` alone. */
  lemma ReadsOnlySubmittedAt(token: Option<string>, c: Contributor, d: Contributor)
    requires c.prefsSubmittedAt == d.prefsSubmittedAt
    ensures CheckAndRedirect(token, Some(c)) == CheckAndRedirect(token, Some(d))
  {
  }
}
