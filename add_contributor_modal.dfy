/** The administrator's "add contributor" dialog. */
module AddContributorModal {
  import opened Text
  import opened Store

  const AddFailedAlert := "Failed to add contributor."

  /** `sessionId || null`: an absent or empty session id is stored as null. */
  function SessionRef(sessionId: Option<string>): (r: Option<string>)
    ensures r.None? <==> !Truthy(sessionId)
    ensures r.Some? ==> r == sessionId
  {
    if Truthy(sessionId) then sessionId else None
  }

  /** The dialog's state; `sessionId` is the session selected on the
      dashboard. */
  class Form {
    const sessionId: Option<string>
    var name: string
    var loading: bool

    constructor (sessionId: Option<string>)
      ensures this.sessionId == sessionId && name == "" && !loading
    {
      this.sessionId := sessionId;
      name, loading := "", false;
    }

    /** `handleAddContributor`: a blank name does nothing at all; otherwise
        the name is inserted as typed (untrimmed) with the session reference.
        `newId`, `token` and `createdAt` are the columns the database
        generates. Success clears the name and reports the call of
        `onContributorAdded`; failure alerts and keeps the name. */
    method Add(db: Database, newId: string, token: string, createdAt: nat, fail: bool) returns (alert: Option<string>, added: bool)
      requires db.Valid()
      modifies this`name, this`loading, db
      ensures db.Valid()
      ensures Trim(old(name)) == "" ==>
                alert.None? && !added && unchanged(db) && unchanged(this)
      ensures Trim(old(name)) != "" ==>
                !loading &&
                db.journal == old(db.journal) + [InsertContributor(old(name), SessionRef(sessionId))] &&
                added == !(fail || newId in old(db.contributors) ||
                           exists id :: id in old(db.contributors) && old(db.contributors)[id].token == token) &&
                db.contributors == (if added
                                    then old(db.contributors)[newId := NewContributor(newId, token, createdAt, old(name), SessionRef(sessionId))]
                                    else old(db.contributors)) &&
                db.sessions == old(db.sessions) && db.messages == old(db.messages) &&
                (added ==> name == "" && alert.None?) &&
                (!added ==> name == old(name) && alert == Some(AddFailedAlert))
    {
      if Trim(name) == "" {
        return None, false;
      }
      loading := true;
      var error := db.InsertContributor(name, SessionRef(sessionId), newId, token, createdAt, fail);
      if error {
        alert, added := Some(AddFailedAlert), false;
      } else {
        name := "";
        alert, added := None, true;
      }
      loading := false;
    }
  }
}
