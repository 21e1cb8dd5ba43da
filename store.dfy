/** The three tables the screens read and write (contributors, sessions,
    messages), the column sets the handlers send as update payloads, and the
    database itself as an object whose tables the requests change. Whether a
    request fails (network, row-level security, ...) is an input to each
    request; the database's own constraints (primary keys, the unique token,
    the messages-to-contributor foreign key) are modelled. */
module Store {
  import opened Text

  datatype Role = User | Assistant

  /** A transcript entry as the chat screen selects it: role and content. */
  datatype Message = Message(role: Role, content: string)

  /** One entry of the `bucket_votes` object: a bucket key and its percentage.
      A JavaScript object keeps its string keys in insertion order, so the
      object is a sequence of entries with distinct keys. */
  datatype Vote = Vote(key: string, percent: int)
  type Votes = seq<Vote>

  /** The allocation-preference columns of a contributor row; every column is
      nullable. */
  datatype Prefs = Prefs(
    expertise: Option<string>,
    expertiseDescription: Option<string>,
    bucketDeferred: Option<bool>,
    bucketDelegatedTo: Option<string>,
    bucketVotes: Option<Votes>,
    bucketRationale: Option<string>,
    lockupDeferred: Option<bool>,
    lockupDelegatedTo: Option<string>,
    cliffMonths: Option<int>,
    vestingMonths: Option<int>,
    tgePercent: Option<int>,
    lockupRationale: Option<string>)

  const NoPrefs: Prefs :=
    Prefs(None, None, None, None, None, None, None, None, None, None, None, None)

  /** A row of the contributors table. */
  datatype Contributor = Contributor(
    id: string,
    name: string,
    token: string,
    createdAt: nat, // the instant the database created the row
    sessionId: Option<string>,
    interviewCompleted: bool,
    interviewCompletedAt: Option<string>,
    prefsSubmittedAt: Option<string>,
    acknowledgedAt: Option<string>,
    algorithmFeedback: Option<string>,
    evidenceText: Option<string>,
    prefs: Prefs)

  /** The columns an administrator edits on a session. */
  datatype SessionData = SessionData(name: string, algorithmText: Option<string>, collectFeedback: bool)

  /** A row of the sessions table. */
  datatype Session = Session(id: string, createdAt: nat, data: SessionData)

  /** The column sets the contributor-facing screens send in an update. */
  datatype Patch =
    | PrefsPatch(prefs: Prefs, submittedAt: Option<string>) // None: submitted-at not written
    | AcknowledgePatch(acknowledgedAt: string, feedback: Option<string>) // None: feedback not written
    | CompletionPatch(completedAt: string, evidence: string)

  /** The row after an update with `p`: the patch's columns take its values,
      every other column keeps its old value. */
  function Apply(c: Contributor, p: Patch): (r: Contributor)
    ensures r.id == c.id && r.name == c.name && r.token == c.token
    ensures r.createdAt == c.createdAt && r.sessionId == c.sessionId
    ensures p.PrefsPatch? ==> r.prefs == p.prefs
    ensures !p.PrefsPatch? ==> r.prefs == c.prefs
    ensures r.prefsSubmittedAt ==
              if p.PrefsPatch? && p.submittedAt.Some? then p.submittedAt else c.prefsSubmittedAt
    ensures r.acknowledgedAt == if p.AcknowledgePatch? then Some(p.acknowledgedAt) else c.acknowledgedAt
    ensures r.algorithmFeedback ==
              if p.AcknowledgePatch? && p.feedback.Some? then p.feedback else c.algorithmFeedback
    ensures r.interviewCompleted == (p.CompletionPatch? || c.interviewCompleted)
    ensures r.interviewCompletedAt == if p.CompletionPatch? then Some(p.completedAt) else c.interviewCompletedAt
    ensures r.evidenceText == if p.CompletionPatch? then Some(p.evidence) else c.evidenceText
  {
    match p
    case PrefsPatch(prefs, submittedAt) =>
      c.(prefs := prefs,
         prefsSubmittedAt := if submittedAt.Some? then submittedAt else c.prefsSubmittedAt)
    case AcknowledgePatch(at, feedback) =>
      c.(acknowledgedAt := Some(at),
         algorithmFeedback := if feedback.Some? then feedback else c.algorithmFeedback)
    case CompletionPatch(at, evidence) =>
      c.(interviewCompleted := true, interviewCompletedAt := Some(at), evidenceText := Some(evidence))
  }

  /** The row the database creates for an insert of `{ name, session_id }`:
      id, token and creation time are generated, every progress marker is
      unset and every preference column is null. */
  function NewContributor(id: string, token: string, createdAt: nat, name: string, sessionId: Option<string>): (r: Contributor)
    ensures r.id == id && r.token == token && r.name == name && r.sessionId == sessionId
    ensures !r.interviewCompleted && r.prefsSubmittedAt.None? && r.acknowledgedAt.None?
  {
    Contributor(id, name, token, createdAt, sessionId, false, None, None, None, None, None, NoPrefs)
  }

  /** A request sent to the database, successful or not. */
  datatype Request =
    | UpdateContributor(id: string, patch: Patch)
    | InsertContributor(name: string, sessionId: Option<string>)
    | DeleteMessages(contributorId: string)
    | DeleteContributor(id: string)
    | InsertMessage(contributorId: string, message: Message)
    | InsertSession(data: SessionData)
    | UpdateSession(id: string, data: SessionData)

  class Database {
    var contributors: map<string, Contributor>
    var sessions: map<string, Session>
    /** Each contributor's messages, in creation order; a contributor without
        messages has no entry. */
    var messages: map<string, seq<Message>>
    /** Every request sent so far, in order. */
    ghost var journal: seq<Request>

    /** Rows are keyed by their id, tokens are unique, and every message
        belongs to an existing contributor. */
    ghost predicate Valid()
      reads this
    {
      (forall id :: id in contributors ==> contributors[id].id == id) &&
      (forall a, b :: a in contributors && b in contributors && a != b ==>
         contributors[a].token != contributors[b].token) &&
      (forall id :: id in sessions ==> sessions[id].id == id) &&
      (forall id :: id in messages ==> id in contributors && messages[id] != [])
    }

    constructor ()
      ensures Valid()
      ensures contributors == map[] && sessions == map[] && messages == map[] && journal == []
    {
      contributors, sessions, messages := map[], map[], map[];
      journal := [];
    }

    /** `update(patch).eq('id', id)`: a missing row is no error, it just
        matches nothing. */
    method Update(id: string, patch: Patch, fail: bool) returns (err: bool)
      requires Valid()
      modifies this
      ensures Valid()
      ensures err == fail
      ensures contributors == if !fail && id in old(contributors)
                              then old(contributors)[id := Apply(old(contributors)[id], patch)]
                              else old(contributors)
      ensures sessions == old(sessions) && messages == old(messages)
      ensures journal == old(journal) + [UpdateContributor(id, patch)]
    {
      err := fail;
      if !fail && id in contributors {
        contributors := contributors[id := Apply(contributors[id], patch)];
      }
      journal := journal + [UpdateContributor(id, patch)];
    }

    /** `insert({ name, session_id })`; the generated id and token must not
        clash with an existing row. */
    method InsertContributor(name: string, sessionId: Option<string>, newId: string, token: string, createdAt: nat, fail: bool)
      returns (err: bool)
      requires Valid()
      modifies this
      ensures Valid()
      ensures err == (fail || newId in old(contributors) ||
                      exists id :: id in old(contributors) && old(contributors)[id].token == token)
      ensures contributors == if err then old(contributors)
                              else old(contributors)[newId := NewContributor(newId, token, createdAt, name, sessionId)]
      ensures sessions == old(sessions) && messages == old(messages)
      ensures journal == old(journal) + [Request.InsertContributor(name, sessionId)]
    {
      err := fail || newId in contributors ||
             exists id :: id in contributors && contributors[id].token == token;
      if !err {
        contributors := contributors[newId := NewContributor(newId, token, createdAt, name, sessionId)];
      }
      journal := journal + [Request.InsertContributor(name, sessionId)];
    }

    /** `insert` into messages; the contributor must exist. */
    method InsertMessage(contributorId: string, m: Message, fail: bool) returns (err: bool)
      requires Valid()
      modifies this
      ensures Valid()
      ensures err == (fail || contributorId !in contributors)
      ensures messages == if err then old(messages)
                          else old(messages)[contributorId := MessagesOf(old(messages), contributorId) + [m]]
      ensures contributors == old(contributors) && sessions == old(sessions)
      ensures journal == old(journal) + [Request.InsertMessage(contributorId, m)]
    {
      err := fail || contributorId !in contributors;
      if !err {
        messages := messages[contributorId := MessagesOf(messages, contributorId) + [m]];
      }
      journal := journal + [Request.InsertMessage(contributorId, m)];
    }

    /** `delete().eq('contributor_id', id)` on messages. */
    method DeleteMessages(contributorId: string, fail: bool) returns (err: bool)
      requires Valid()
      modifies this
      ensures Valid()
      ensures err == fail
      ensures messages == if fail then old(messages) else old(messages) - {contributorId}
      ensures contributors == old(contributors) && sessions == old(sessions)
      ensures journal == old(journal) + [Request.DeleteMessages(contributorId)]
    {
      err := fail;
      if !fail {
        messages := messages - {contributorId};
      }
      journal := journal + [Request.DeleteMessages(contributorId)];
    }

    /** `delete().eq('id', id)` on contributors; refused by the foreign key
        while the contributor still has messages. */
    method DeleteContributor(id: string, fail: bool) returns (err: bool)
      requires Valid()
      modifies this
      ensures Valid()
      ensures err == (fail || id in old(messages))
      ensures contributors == if err then old(contributors) else old(contributors) - {id}
      ensures messages == old(messages) && sessions == old(sessions)
      ensures journal == old(journal) + [Request.DeleteContributor(id)]
    {
      err := fail || id in messages;
      if !err {
        contributors := contributors - {id};
      }
      journal := journal + [Request.DeleteContributor(id)];
    }

    /** `insert(data)` into sessions with a generated id and creation time. */
    method InsertSession(data: SessionData, newId: string, createdAt: nat, fail: bool) returns (err: bool)
      requires Valid()
      modifies this
      ensures Valid()
      ensures err == (fail || newId in old(sessions))
      ensures sessions == if err then old(sessions) else old(sessions)[newId := Session(newId, createdAt, data)]
      ensures contributors == old(contributors) && messages == old(messages)
      ensures journal == old(journal) + [Request.InsertSession(data)]
    {
      err := fail || newId in sessions;
      if !err {
        sessions := sessions[newId := Session(newId, createdAt, data)];
      }
      journal := journal + [Request.InsertSession(data)];
    }

    /** `update(data).eq('id', id)` on sessions. */
    method UpdateSession(id: string, data: SessionData, fail: bool) returns (err: bool)
      requires Valid()
      modifies this
      ensures Valid()
      ensures err == fail
      ensures sessions == if !fail && id in old(sessions)
                          then old(sessions)[id := old(sessions)[id].(data := data)]
                          else old(sessions)
      ensures contributors == old(contributors) && messages == old(messages)
      ensures journal == old(journal) + [Request.UpdateSession(id, data)]
    {
      err := fail;
      if !fail && id in sessions {
        sessions := sessions[id := sessions[id].(data := data)];
      }
      journal := journal + [Request.UpdateSession(id, data)];
    }
  }

  /** The messages stored for a contributor (none when it has no entry). */
  function MessagesOf(messages: map<string, seq<Message>>, id: string): seq<Message> {
    if id in messages then messages[id] else []
  }
}
