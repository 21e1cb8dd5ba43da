/** The administrator's session dialog: create a session or edit the selected
    one (name, algorithm text, whether feedback on the algorithm is
    collected). */
module SessionConfigModal {
  import opened Text
  import opened Store

  const NameAlert := "Please enter a session name"
  const SaveFailedAlert := "Failed to save session."

  /** `sessionData`: the name trimmed, the algorithm text trimmed and stored
      as null when nothing is left of it. */
  function Normalize(name: string, algorithmText: string, collectFeedback: bool): (d: SessionData)
    ensures d.name == Trim(name)
    ensures d.algorithmText.None? <==> Trim(algorithmText) == ""
    ensures d.algorithmText.Some? ==> d.algorithmText.value == Trim(algorithmText)
    ensures d.collectFeedback == collectFeedback
  {
    SessionData(Trim(name), OrNull(Trim(algorithmText)), collectFeedback)
  }

  /** Session data as a save leaves it: no surrounding spaces on the name or
      the text, and no empty text. */
  predicate Normalized(d: SessionData) {
    Trim(d.name) == d.name &&
    (d.algorithmText.Some? ==> d.algorithmText.value != "" && Trim(d.algorithmText.value) == d.algorithmText.value)
  }

  /** The fields the dialog shows for `d`: a null text is shown as empty. */
  function PrefillFields(d: SessionData): (string, string, bool) {
    (d.name, if d.algorithmText.Some? then d.algorithmText.value else "", d.collectFeedback)
  }

  /** Every save writes normalized data. */
  lemma SaveIsNormalized(name: string, algorithmText: string, collectFeedback: bool)
    ensures Normalized(Normalize(name, algorithmText, collectFeedback))
  {
    TrimIdempotent(name);
    TrimIdempotent(algorithmText);
  }

  /** Opening a saved session for editing and saving it unchanged writes
      exactly the data it already had. */
  lemma EditSaveRoundTrip(d: SessionData)
    requires Normalized(d)
    ensures var (n, t, f) := PrefillFields(d); Normalize(n, t, f) == d
  {
    if d.algorithmText.None? {
      assert Trim("") == "";
    }
  }

  /** The request a save sends: an update of the edited session, or an
      insert. */
  function SaveRequest(edit: Option<Session>, data: SessionData): Request {
    if edit.Some? then UpdateSession(edit.value.id, data) else InsertSession(data)
  }

  /** Whether that request fails: an update fails only on a request error (a
      missing row matches nothing); an insert also on an id clash. */
  predicate SaveFails(sessions: map<string, Session>, edit: Option<Session>, newId: string, fail: bool) {
    fail || (edit.None? && newId in sessions)
  }

  /** The sessions table after that request. */
  function SessionsAfter(sessions: map<string, Session>, edit: Option<Session>, data: SessionData,
                         newId: string, createdAt: nat, fail: bool): map<string, Session>
  {
    if SaveFails(sessions, edit, newId, fail) then sessions
    else if edit.Some? then
      (if edit.value.id in sessions then sessions[edit.value.id := sessions[edit.value.id].(data := data)] else sessions)
    else sessions[newId := Session(newId, createdAt, data)]
  }

  /** The dialog's state. */
  class Form {
    var editSession: Option<Session>
    var name: string
    var algorithmText: string
    var collectFeedback: bool
    var loading: bool

    constructor ()
      ensures editSession.None? && name == "" && algorithmText == "" && !collectFeedback && !loading
    {
      editSession := None;
      name, algorithmText, collectFeedback, loading := "", "", false, false;
    }

    /** The prefill effect, run when the dialog opens or the edited session
        changes. */
    method Prefill(edit: Option<Session>)
      modifies this`editSession, this`name, this`algorithmText, this`collectFeedback
      ensures editSession == edit
      ensures edit.Some? ==> (name, algorithmText, collectFeedback) == PrefillFields(edit.value.data)
      ensures edit.None? ==> name == "" && algorithmText == "" && !collectFeedback
    {
      editSession := edit;
      if edit.Some? {
        name := edit.value.data.name;
        algorithmText := if edit.value.data.algorithmText.Some? then edit.value.data.algorithmText.value else "";
        collectFeedback := edit.value.data.collectFeedback;
      } else {
        name, algorithmText, collectFeedback := "", "", false;
      }
    }

    /** The save request itself: an update of the edited session, or an
        insert. */
    method Persist(db: Database, data: SessionData, newId: string, createdAt: nat, fail: bool) returns (err: bool)
      requires db.Valid()
      modifies db
      ensures db.Valid()
      ensures err == SaveFails(old(db.sessions), editSession, newId, fail)
      ensures db.journal == old(db.journal) + [SaveRequest(editSession, data)]
      ensures db.sessions == SessionsAfter(old(db.sessions), editSession, data, newId, createdAt, fail)
      ensures db.contributors == old(db.contributors) && db.messages == old(db.messages)
    {
      if editSession.Some? {
        err := db.UpdateSession(editSession.value.id, data, fail);
      } else {
        err := db.InsertSession(data, newId, createdAt, fail);
      }
    }

    /** `handleSave` past the name check: `data` (the normalized fields) is
        sent; on success the fields reset, on failure they are kept. */
    method Commit(db: Database, data: SessionData, newId: string, createdAt: nat, fail: bool) returns (alert: Option<string>, saved: bool)
      requires db.Valid()
      modifies this`name, this`algorithmText, this`collectFeedback, this`loading, db
      ensures db.Valid()
      ensures !loading &&
                db.journal == old(db.journal) + [SaveRequest(editSession, data)] &&
                saved == !SaveFails(old(db.sessions), editSession, newId, fail) &&
                db.sessions == SessionsAfter(old(db.sessions), editSession, data, newId, createdAt, fail) &&
                db.contributors == old(db.contributors) && db.messages == old(db.messages) &&
                alert == (if saved then None else Some(SaveFailedAlert)) &&
                (saved ==> name == "" && algorithmText == "" && !collectFeedback) &&
                (!saved ==> name == old(name) && algorithmText == old(algorithmText) &&
                            collectFeedback == old(collectFeedback))
    {
      loading := true;
      var error := Persist(db, data, newId, createdAt, fail);
      if error {
        alert, saved := Some(SaveFailedAlert), false;
      } else {
        name, algorithmText, collectFeedback := "", "", false;
        alert, saved := None, true;
      }
      loading := false;
    }

    /** `handleSave`: a blank name alerts and writes nothing; otherwise the
        normalized data updates the edited session, or is inserted as a new
        session (`newId`, `createdAt` are the generated columns). On success
        the fields reset and `saved` reports the call of `onSessionSaved`;
        on failure the fields are kept. */
    method Save(db: Database, newId: string, createdAt: nat, fail: bool) returns (alert: Option<string>, saved: bool)
      requires db.Valid()
      modifies this`name, this`algorithmText, this`collectFeedback, this`loading, db
      ensures db.Valid()
      ensures Trim(old(name)) == "" ==>
                alert == Some(NameAlert) && !saved && unchanged(db) && unchanged(this)
      ensures Trim(old(name)) != "" ==>
                var data := Normalize(old(name), old(algorithmText), old(collectFeedback));
                !loading &&
                db.journal == old(db.journal) + [SaveRequest(editSession, data)] &&
                saved == !SaveFails(old(db.sessions), editSession, newId, fail) &&
                db.sessions == SessionsAfter(old(db.sessions), editSession, data, newId, createdAt, fail) &&
                db.contributors == old(db.contributors) && db.messages == old(db.messages) &&
                alert == (if saved then None else Some(SaveFailedAlert)) &&
                (saved ==> name == "" && algorithmText == "" && !collectFeedback) &&
                (!saved ==> name == old(name) && algorithmText == old(algorithmText) &&
                            collectFeedback == old(collectFeedback))
    {
      if Trim(name) == "" {
        return Some(NameAlert), false;
      }
      alert, saved := Commit(db, Normalize(name, algorithmText, collectFeedback), newId, createdAt, fail);
    }
  }
}
