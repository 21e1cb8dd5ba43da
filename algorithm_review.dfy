/** The algorithm review step `/review/<token>`: shows the session's algorithm
    text to a contributor who has a session with such text and has not yet
    acknowledged it, and sends everyone else on to the preferences step. */
module AlgorithmReview {
  import opened Text
  import opened Store
  import opened Routes

  datatype Outcome =
    | Failed(message: string)
    | Redirect(to: Path)
    | ShowText(session: Session)

  /** `fetchData`'s chain of checks. `row` is the contributor looked up by
      token and `sessionRow` the session looked up by the contributor's
      session id (None when a lookup failed or found nothing); the session is
      consulted only once every contributor check has passed. */
  function FetchData(token: Option<string>, row: Option<Contributor>, sessionRow: Option<Session>): (o: Outcome)
    ensures !Truthy(token) ==> o == Failed(InvalidLinkError)
    ensures Truthy(token) && row.None? ==> o == Failed(ExpiredLinkError)
    ensures Truthy(token) && row.Some? ==> !o.Failed?
    ensures o.ShowText? <==>
              Truthy(token) && row.Some? && Truthy(row.value.sessionId) &&
              !Truthy(row.value.acknowledgedAt) && sessionRow.Some? &&
              Truthy(sessionRow.value.data.algorithmText)
    ensures o.ShowText? ==> o.session == sessionRow.value
    ensures o.Redirect? ==> o.to == Contribute(token.value)
  {
    if !Truthy(token) then Failed(InvalidLinkError)
    else if row.None? then Failed(ExpiredLinkError)
    else if !Truthy(row.value.sessionId) then Redirect(Contribute(token.value))
    else if Truthy(row.value.acknowledgedAt) then Redirect(Contribute(token.value))
    else if sessionRow.None? then Redirect(Contribute(token.value))
    else if !Truthy(sessionRow.value.data.algorithmText) then Redirect(Contribute(token.value))
    else ShowText(sessionRow.value)
  }

  /** A contributor without a session, or one who already acknowledged the
      algorithm, is redirected before the session is looked up: the session
      lookup's result does not matter. */
  lemma AcknowledgedBeforeSessionLookup(token: string, c: Contributor, s1: Option<Session>, s2: Option<Session>)
    requires token != ""
    requires !Truthy(c.sessionId) || Truthy(c.acknowledgedAt)
    ensures FetchData(Some(token), Some(c), s1) == Redirect(Contribute(token))
    ensures FetchData(Some(token), Some(c), s1) == FetchData(Some(token), Some(c), s2)
  {
  }

  /** `updateData` of `handleContinue`: the acknowledgement time always, the
      trimmed feedback only when the session collects feedback and the
      trimmed feedback is not empty. */
  function ContinuePatch(now: string, session: Option<Session>, feedback: string): (p: Patch)
    ensures p.AcknowledgePatch? && p.acknowledgedAt == now
    ensures p.feedback.Some? <==>
              session.Some? && session.value.data.collectFeedback && Trim(feedback) != ""
    ensures p.feedback.Some? ==> p.feedback.value == Trim(feedback)
  {
    var withFeedback := session.Some? && session.value.data.collectFeedback && Trim(feedback) != "";
    AcknowledgePatch(now, if withFeedback then Some(Trim(feedback)) else None)
  }

  /** The page's state. */
  class Page {
    const token: Option<string>
    var contributor: Option<Contributor>
    var session: Option<Session>
    var loading: bool
    var error: Option<string>
    var feedback: string
    var submitting: bool

    /** A contributor is only ever recorded for a present token. */
    ghost predicate Valid()
      reads this
    {
      contributor.Some? ==> Truthy(token)
    }

    constructor (token: Option<string>)
      ensures Valid()
      ensures this.token == token && contributor.None? && session.None? && loading
      ensures error.None? && feedback == "" && !submitting
    {
      this.token := token;
      contributor, session, loading, error := None, None, true, None;
      feedback, submitting := "", false;
    }

    /** `fetchData` applied to the page: errors end the loading state, a
        redirect leaves it loading, and the text is shown with the session
        recorded. The contributor is recorded as soon as it is found. */
    method Load(row: Option<Contributor>, sessionRow: Option<Session>) returns (nav: Option<Navigation>)
      requires Valid()
      modifies this`contributor, this`session, this`loading, this`error
      ensures Valid()
      ensures match FetchData(token, row, sessionRow)
              case Failed(m) =>
                nav.None? && error == Some(m) && !loading &&
                contributor == old(contributor) && session == old(session)
              case Redirect(to) =>
                nav == Some(Navigation(to, false)) && contributor == row &&
                error == old(error) && loading == old(loading) && session == old(session)
              case ShowText(s) =>
                nav.None? && contributor == row && session == Some(s) && !loading && error == old(error)
    {
      match FetchData(token, row, sessionRow)
      case Failed(m) =>
        error := Some(m);
        loading := false;
        nav := None;
      case Redirect(to) =>
        contributor := row;
        nav := Some(Navigation(to, false));
      case ShowText(s) =>
        contributor := row;
        session := Some(s);
        loading := false;
        nav := None;
    }

    /** `handleContinue`: nothing without a loaded contributor id; otherwise
        the acknowledgement (and feedback) is written at `now` and the page
        moves to the preferences step whatever the write did. */
    method Continue(db: Database, now: string, fail: bool) returns (nav: Option<Navigation>)
      requires Valid() && db.Valid()
      modifies this`submitting, db
      ensures db.Valid()
      ensures contributor.None? || contributor.value.id == "" ==>
                nav.None? && unchanged(db) && submitting == old(submitting)
      ensures contributor.Some? && contributor.value.id != "" ==>
                submitting &&
                nav == Some(Navigation(Contribute(token.value), false)) &&
                db.journal == old(db.journal) + [UpdateContributor(contributor.value.id, ContinuePatch(now, session, feedback))] &&
                db.contributors == (if !fail && contributor.value.id in old(db.contributors)
                                   then old(db.contributors)[contributor.value.id := Apply(old(db.contributors)[contributor.value.id], ContinuePatch(now, session, feedback))]
                                   else old(db.contributors)) &&
                db.sessions == old(db.sessions) && db.messages == old(db.messages)
    {
      if contributor.None? || contributor.value.id == "" {
        return None;
      }
      submitting := true;
      var _ := db.Update(contributor.value.id, ContinuePatch(now, session, feedback), fail);
      nav := Some(Navigation(Contribute(token.value), false));
    }
  }
}
