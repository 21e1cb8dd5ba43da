/** The administrator's dashboard: the contributor list (newest first),
    filtered by the selected session, the session selector and the two-step
    delete of a contributor with its messages. */
module AdminDashboard {
  import opened Text
  import opened Store
  import AddContributorModal

  /** Contributors ordered by creation time, newest first, as the listing
      query `order('created_at', { ascending: false })` returns them. */
  predicate NewestFirst(cs: seq<Contributor>) {
    forall i, j :: 0 <= i < j < |cs| ==> cs[i].createdAt >= cs[j].createdAt
  }

  /** The contributors of session `id`, in their original order. */
  function FilterBySession(cs: seq<Contributor>, id: string): (r: seq<Contributor>)
    ensures |r| <= |cs|
    ensures forall c :: c in r <==> c in cs && c.sessionId == Some(id)
  {
    if cs == [] then []
    else (if cs[0].sessionId == Some(id) then [cs[0]] else []) + FilterBySession(cs[1..], id)
  }

  /** Filtering drops no duplicate: each contributor of the session occurs
      as often as in the input, every other contributor not at all. */
  lemma {:induction false} FilterCounts(cs: seq<Contributor>, id: string)
    ensures forall c :: multiset(FilterBySession(cs, id))[c] ==
                        if c.sessionId == Some(id) then multiset(cs)[c] else 0
  {
    if cs != [] {
      assert cs == [cs[0]] + cs[1..];
      FilterCounts(cs[1..], id);
    }
  }

  /** `filteredContributors`: everyone when no session is selected. */
  function Filtered(cs: seq<Contributor>, selected: Option<Session>): (r: seq<Contributor>)
    ensures selected.None? ==> r == cs
    ensures selected.Some? ==> r == FilterBySession(cs, selected.value.id)
  {
    if selected.Some? then FilterBySession(cs, selected.value.id) else cs
  }

  /** Filtering keeps the relative order: filtering a concatenation is
      concatenating the filtered parts. */
  lemma {:induction false} FilterAppend(a: seq<Contributor>, b: seq<Contributor>, id: string)
    ensures FilterBySession(a + b, id) == FilterBySession(a, id) + FilterBySession(b, id)
  {
    if a == [] {
      assert a + b == b;
    } else {
      assert (a + b)[1..] == a[1..] + b;
      FilterAppend(a[1..], b, id);
    }
  }

  /** The filtered list is still newest first. */
  lemma {:induction false} FilterKeepsNewestFirst(cs: seq<Contributor>, id: string)
    requires NewestFirst(cs)
    ensures NewestFirst(FilterBySession(cs, id))
  {
    if cs != [] {
      var tail := cs[1..];
      assert NewestFirst(tail) by {
        forall i, j | 0 <= i < j < |tail|
          ensures tail[i].createdAt >= tail[j].createdAt
        {
          assert tail[i] == cs[i + 1] && tail[j] == cs[j + 1];
        }
      }
      FilterKeepsNewestFirst(tail, id);
      var rest := FilterBySession(tail, id);
      forall c | c in rest
        ensures cs[0].createdAt >= c.createdAt
      {
        var k :| 0 <= k < |tail| && tail[k] == c;
        assert cs[k + 1] == c;
      }
      if cs[0].sessionId == Some(id) {
        NewestFirstCons(cs[0], rest);
      }
    }
  }

  lemma NewestFirstCons(x: Contributor, rest: seq<Contributor>)
    requires NewestFirst(rest)
    requires forall c :: c in rest ==> x.createdAt >= c.createdAt
    ensures NewestFirst([x] + rest)
  {
  }

  /** A contributor added while session `sel` is selected is stored with
      that session and so is listed once the list is fetched again. */
  lemma AddedShowsInSelectedSession(rows: seq<Contributor>, sel: Session, id: string, token: string,
                                    createdAt: nat, name: string)
    requires sel.id != ""
    requires NewContributor(id, token, createdAt, name, AddContributorModal.SessionRef(Some(sel.id))) in rows
    ensures NewContributor(id, token, createdAt, name, AddContributorModal.SessionRef(Some(sel.id))) in Filtered(rows, Some(sel))
  {
  }

  /** `sessions.find((s) => s.id === value) || null`: the first session with
      that id. */
  function FindSession(sessions: seq<Session>, id: string): (r: Option<Session>)
    ensures r.None? <==> forall s :: s in sessions ==> s.id != id
    ensures r.Some? ==> r.value in sessions && r.value.id == id
    ensures r.Some? ==> sessions[FirstWithId(sessions, id)] == r.value
  {
    if sessions == [] then None
    else if sessions[0].id == id then Some(sessions[0])
    else FindSession(sessions[1..], id)
  }

  /** Index of the first session with id `id`. */
  function FirstWithId(sessions: seq<Session>, id: string): (k: nat)
    ensures k <= |sessions|
    ensures forall i :: 0 <= i < k ==> sessions[i].id != id
    ensures k < |sessions| ==> sessions[k].id == id
  {
    if sessions == [] || sessions[0].id == id then 0 else 1 + FirstWithId(sessions[1..], id)
  }

  datatype Toast = Success(text: string) | Failure(text: string)

  function DeletedToast(name: string): (t: Toast)
    ensures t.Success? && |t.text| >= |name| && t.text[|t.text| - |name|..] == name
  {
    Success("Successfully deleted " + name)
  }

  function DeleteFailedToast(name: string): (t: Toast)
    ensures t.Failure? && |t.text| >= 17 + |name| && t.text[17..17 + |name|] == name
  {
    Failure("Failed to delete " + name + ". Please try again.")
  }

  /** The dashboard's state. */
  class Dashboard {
    var contributors: seq<Contributor>
    var loading: bool
    var sessions: seq<Session>
    var selectedSession: Option<Session>
    var editingSession: Option<Session>
    var sessionModalOpen: bool

    /** The listed contributors are newest first. */
    ghost predicate Valid()
      reads this
    {
      NewestFirst(contributors)
    }

    constructor ()
      ensures Valid()
      ensures contributors == [] && loading && sessions == [] && selectedSession.None?
      ensures editingSession.None? && !sessionModalOpen
    {
      contributors, loading, sessions := [], true, [];
      selectedSession, editingSession, sessionModalOpen := None, None, false;
    }

    /** The rows the contributor table shows. */
    function Visible(): (r: seq<Contributor>)
      reads this
      ensures |r| <= |contributors|
      ensures forall c :: c in r <==> c in contributors && (selectedSession.Some? ==> c.sessionId == Some(selectedSession.value.id))
    {
      Filtered(contributors, selectedSession)
    }

    /** The "Add Contributor" button is enabled only with a session selected. */
    predicate AddEnabled()
      reads this
    {
      selectedSession.Some?
    }

    /** The session id handed to the add dialog: `selectedSession?.id`. */
    function AddDialogSession(): (r: Option<string>)
      reads this
      ensures r.Some? <==> AddEnabled()
      ensures r.Some? ==> r.value == selectedSession.value.id
    {
      if selectedSession.Some? then Some(selectedSession.value.id) else None
    }

    /** `fetchContributors`: `error` and `data` are the query's result; the
        database returns the rows newest first. An error keeps the old list;
        a null result without error empties it. */
    method FetchContributors(error: bool, data: Option<seq<Contributor>>)
      requires Valid()
      requires data.Some? ==> NewestFirst(data.value)
      modifies this`contributors, this`loading
      ensures Valid()
      ensures contributors == if error then old(contributors) else if data.Some? then data.value else []
      ensures !loading
    {
      loading := true;
      if !error {
        contributors := if data.Some? then data.value else [];
      }
      loading := false;
    }

    /** The session selector's change handler. */
    method SelectSession(value: string)
      modifies this`selectedSession
      ensures selectedSession == FindSession(sessions, value)
    {
      selectedSession := FindSession(sessions, value);
    }

    /** `handleEditSession`: only with a session selected. */
    method EditSession()
      modifies this`editingSession, this`sessionModalOpen
      ensures selectedSession.Some? ==> editingSession == selectedSession && sessionModalOpen
      ensures selectedSession.None? ==> editingSession == old(editingSession) && sessionModalOpen == old(sessionModalOpen)
    {
      if selectedSession.Some? {
        editingSession := selectedSession;
        sessionModalOpen := true;
      }
    }

    /** `handleCreateSession`. */
    method CreateSession()
      modifies this`editingSession, this`sessionModalOpen
      ensures editingSession.None? && sessionModalOpen
    {
      editingSession := None;
      sessionModalOpen := true;
    }

    /** `handleDeleteContributor`: the messages are deleted first and a
        failure there aborts before the contributor row is touched; then the
        contributor row; then the list is fetched again (`fetchError`,
        `fetchData` are that query's result). Any failure shows the error
        toast naming the contributor. */
    method DeleteContributor(db: Database, id: string, name: string, messagesFail: bool, contributorFail: bool,
                             fetchError: bool, fetchData: Option<seq<Contributor>>)
      returns (toast: Toast)
      requires Valid() && db.Valid()
      requires fetchData.Some? ==> NewestFirst(fetchData.value)
      modifies this`contributors, this`loading, db
      ensures Valid() && db.Valid()
      ensures db.sessions == old(db.sessions)
      ensures messagesFail ==>
                toast == DeleteFailedToast(name) &&
                db.journal == old(db.journal) + [DeleteMessages(id)] &&
                db.contributors == old(db.contributors) && db.messages == old(db.messages) &&
                contributors == old(contributors) && loading == old(loading)
      ensures !messagesFail ==>
                db.journal == old(db.journal) + [DeleteMessages(id), Request.DeleteContributor(id)] &&
                db.messages == old(db.messages) - {id}
      ensures !messagesFail && contributorFail ==>
                toast == DeleteFailedToast(name) &&
                db.contributors == old(db.contributors) && contributors == old(contributors) &&
                loading == old(loading)
      ensures !messagesFail && !contributorFail ==>
                toast == DeletedToast(name) &&
                db.contributors == old(db.contributors) - {id} &&
                contributors == (if fetchError then old(contributors) else if fetchData.Some? then fetchData.value else []) &&
                !loading
    {
      var err := db.DeleteMessages(id, messagesFail);
      if err {
        return DeleteFailedToast(name);
      }
      err := db.DeleteContributor(id, contributorFail);
      if err {
        return DeleteFailedToast(name);
      }
      FetchContributors(fetchError, fetchData);
      toast := DeletedToast(name);
    }
  }
}
