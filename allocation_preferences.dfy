/** The allocation-preferences step: five bucket sliders that must total 100
    unless the bucket decision is deferred, three lockup parameters with their
    own defer flag, a draft autosaved to the contributor row, and the final
    submission that stamps the row and moves on to the interview. */
module AllocationPreferences {
  import opened Text
  import opened Store
  import opened Routes

  /** The keys of the five buckets, in display order. */
  const BucketKeys: seq<string> :=
    ["core_team", "contributors", "network_rewards", "ecosystem_partners", "treasury"]

  /** The slider positions a fresh form starts from. */
  const DefaultVotes: Votes := [
    Vote("core_team", 20),
    Vote("contributors", 10),
    Vote("network_rewards", 30),
    Vote("ecosystem_partners", 15),
    Vote("treasury", 25)
  ]

  const SumAlert := "Bucket allocations must sum to 100%"

  /** `bucketTotal`: the sum of every value of the votes object. */
  function Total(v: Votes): int {
    if v == [] then 0 else v[0].percent + Total(v[1..])
  }

  /** The value stored under `key`, if any. */
  function Percent(v: Votes, key: string): Option<int> {
    if v == [] then None
    else if v[0].key == key then Some(v[0].percent)
    else Percent(v[1..], key)
  }

  /** What a slider shows: `bucketVotes[key] || 0`. */
  function Shown(v: Votes, key: string): int {
    match Percent(v, key)
    case Some(p) => p
    case None => 0
  }

  /** An object never holds two entries with the same key. */
  predicate UniqueKeys(v: Votes) {
    v == [] || (Percent(v[1..], v[0].key).None? && UniqueKeys(v[1..]))
  }

  /** `{ ...prev, [key]: value }`: an existing key keeps its place and takes
      the new value; a new key is added at the end. */
  function SetVote(v: Votes, key: string, value: int): Votes {
    if v == [] then [Vote(key, value)]
    else if v[0].key == key then [Vote(key, value)] + v[1..]
    else [v[0]] + SetVote(v[1..], key, value)
  }

  /** After `handleBucketChange(key, value)` the slider of `key` reads `value`
      and every other key reads what it read before. */
  lemma {:induction false} SetVoteLookup(v: Votes, key: string, value: int, other: string)
    ensures Percent(SetVote(v, key, value), other) ==
            if other == key then Some(value) else Percent(v, other)
  {
    if v != [] && v[0].key != key {
      SetVoteLookup(v[1..], key, value, other);
    }
  }

  /** The total moves by exactly the change made to the one slider. */
  lemma {:induction false} SetVoteTotal(v: Votes, key: string, value: int)
    ensures Total(SetVote(v, key, value)) == Total(v) - Shown(v, key) + value
  {
    if v != [] && v[0].key != key {
      SetVoteTotal(v[1..], key, value);
    }
  }

  /** Setting a key keeps the keys distinct. */
  lemma {:induction false} SetVoteUnique(v: Votes, key: string, value: int)
    requires UniqueKeys(v)
    ensures UniqueKeys(SetVote(v, key, value))
  {
    if v != [] && v[0].key != key {
      SetVoteUnique(v[1..], key, value);
      SetVoteLookup(v[1..], key, value, v[0].key);
    }
  }

  /** The default positions are one per bucket and add up to 100. */
  lemma DefaultVotesValid()
    ensures UniqueKeys(DefaultVotes) && Total(DefaultVotes) == 100
    ensures forall i :: 0 <= i < |BucketKeys| ==> Percent(DefaultVotes, BucketKeys[i]).Some?
  {
  }

  /** Every field of the form. */
  datatype Draft = Draft(
    expertise: string,
    expertiseDescription: string,
    bucketDeferred: bool,
    bucketDelegatedTo: string,
    bucketVotes: Votes,
    bucketRationale: string,
    lockupDeferred: bool,
    lockupDelegatedTo: string,
    cliffMonths: int,
    vestingMonths: int,
    tgePercent: int,
    lockupRationale: string)

  /** The form as it is first rendered. */
  const Defaults: Draft := Draft("", "", false, "", DefaultVotes, "", false, "", 12, 36, 5, "")

  /** The submit button is disabled, and a submit refused, exactly when the
      buckets are not deferred and do not total 100. */
  predicate SubmitBlocked(d: Draft) {
    !d.bucketDeferred && Total(d.bucketVotes) != 100
  }

  /** The autosave payload: every field as it stands, an empty delegate
      written as null, nothing nulled by the defer flags. */
  function AutosavePrefs(d: Draft): (p: Prefs)
    ensures p.bucketVotes == Some(d.bucketVotes)
    ensures p.cliffMonths == Some(d.cliffMonths) && p.vestingMonths == Some(d.vestingMonths)
    ensures p.tgePercent == Some(d.tgePercent)
    ensures p.bucketDelegatedTo == OrNull(d.bucketDelegatedTo)
    ensures p.lockupDelegatedTo == OrNull(d.lockupDelegatedTo)
  {
    Prefs(Some(d.expertise), Some(d.expertiseDescription),
          Some(d.bucketDeferred), OrNull(d.bucketDelegatedTo), Some(d.bucketVotes), Some(d.bucketRationale),
          Some(d.lockupDeferred), OrNull(d.lockupDelegatedTo),
          Some(d.cliffMonths), Some(d.vestingMonths), Some(d.tgePercent), Some(d.lockupRationale))
  }

  /** The submit payload: each defer flag decides which of its group's fields
      are stored and which are cleared. */
  function SubmitPrefs(d: Draft): (p: Prefs)
    ensures d.bucketDeferred ==> p.bucketVotes.None? && p.bucketDelegatedTo == OrNull(d.bucketDelegatedTo)
    ensures !d.bucketDeferred ==> p.bucketVotes == Some(d.bucketVotes) && p.bucketDelegatedTo.None?
    ensures d.lockupDeferred ==>
              p.cliffMonths.None? && p.vestingMonths.None? && p.tgePercent.None? &&
              p.lockupDelegatedTo == OrNull(d.lockupDelegatedTo)
    ensures !d.lockupDeferred ==>
              p.cliffMonths == Some(d.cliffMonths) && p.vestingMonths == Some(d.vestingMonths) &&
              p.tgePercent == Some(d.tgePercent) && p.lockupDelegatedTo.None?
    ensures p.bucketDeferred == Some(d.bucketDeferred) && p.lockupDeferred == Some(d.lockupDeferred)
  {
    Prefs(Some(d.expertise), Some(d.expertiseDescription),
          Some(d.bucketDeferred),
          if d.bucketDeferred then OrNull(d.bucketDelegatedTo) else None,
          if d.bucketDeferred then None else Some(d.bucketVotes),
          Some(d.bucketRationale),
          Some(d.lockupDeferred),
          if d.lockupDeferred then OrNull(d.lockupDelegatedTo) else None,
          if d.lockupDeferred then None else Some(d.cliffMonths),
          if d.lockupDeferred then None else Some(d.vestingMonths),
          if d.lockupDeferred then None else Some(d.tgePercent),
          Some(d.lockupRationale))
  }

  /** The submit payload is the autosave payload with the deferred groups
      cleared and the delegates of the groups that are not deferred dropped. */
  lemma SubmitIsAutosaveWithDeferralsApplied(d: Draft)
    ensures SubmitPrefs(d) == AutosavePrefs(d).(
      bucketVotes := if d.bucketDeferred then None else Some(d.bucketVotes),
      bucketDelegatedTo := if d.bucketDeferred then OrNull(d.bucketDelegatedTo) else None,
      lockupDelegatedTo := if d.lockupDeferred then OrNull(d.lockupDelegatedTo) else None,
      cliffMonths := if d.lockupDeferred then None else Some(d.cliffMonths),
      vestingMonths := if d.lockupDeferred then None else Some(d.vestingMonths),
      tgePercent := if d.lockupDeferred then None else Some(d.tgePercent))
  {
  }

  /** Draft restore on load: a text column overrides its field when it is a
      non-empty string, a defer flag when it is true, the votes object when it
      is present, a number when it is not null. */
  function Restore(d: Draft, row: Prefs): Draft {
    Draft(
      if Truthy(row.expertise) then row.expertise.value else d.expertise,
      if Truthy(row.expertiseDescription) then row.expertiseDescription.value else d.expertiseDescription,
      if row.bucketDeferred == Some(true) then true else d.bucketDeferred,
      if Truthy(row.bucketDelegatedTo) then row.bucketDelegatedTo.value else d.bucketDelegatedTo,
      if row.bucketVotes.Some? then row.bucketVotes.value else d.bucketVotes,
      if Truthy(row.bucketRationale) then row.bucketRationale.value else d.bucketRationale,
      if row.lockupDeferred == Some(true) then true else d.lockupDeferred,
      if Truthy(row.lockupDelegatedTo) then row.lockupDelegatedTo.value else d.lockupDelegatedTo,
      if row.cliffMonths.Some? then row.cliffMonths.value else d.cliffMonths,
      if row.vestingMonths.Some? then row.vestingMonths.value else d.vestingMonths,
      if row.tgePercent.Some? then row.tgePercent.value else d.tgePercent,
      if Truthy(row.lockupRationale) then row.lockupRationale.value else d.lockupRationale)
  }

  /** A draft survives an autosave and a reload: restoring the saved row into
      a fresh form gives back exactly the form that was saved. */
  lemma AutosaveRestoreRoundTrip(d: Draft)
    ensures Restore(Defaults, AutosavePrefs(d)) == d
  {
  }

  /** A contributor whose row holds no draft sees the defaults. */
  lemma RestoreNothing(d: Draft)
    ensures Restore(d, NoPrefs) == d
  {
  }

  /** The page: its load state and the form controls' values. */
  class Form {
    const token: Option<string>
    var contributor: Option<Contributor>
    var loading: bool
    var saving: bool
    var error: Option<string>
    /** The twelve form controls' state, one record. */
    var values: Draft

    /** A loaded contributor was found by a present token. */
    ghost predicate Valid()
      reads this
    {
      contributor.Some? ==> Truthy(token)
    }

    constructor (token: Option<string>)
      ensures Valid()
      ensures this.token == token && values == Defaults
      ensures contributor.None? && loading && !saving && error.None?
    {
      this.token := token;
      contributor, loading, saving, error := None, true, false, None;
      values := Defaults;
    }

    /** `fetchContributor`: `row` is the contributor looked up by token
        (None when the lookup failed). Returns the redirect, if any. */
    method Load(row: Option<Contributor>) returns (nav: Option<Navigation>)
      requires Valid()
      modifies this
      ensures Valid()
      ensures !Truthy(token) ==>
                nav.None? && error == Some(InvalidLinkError) && !loading &&
                contributor == old(contributor) && values == old(values)
      ensures Truthy(token) && row.None? ==>
                nav.None? && error == Some(ExpiredLinkError) && !loading &&
                contributor == old(contributor) && values == old(values)
      ensures Truthy(token) && row.Some? && Truthy(row.value.prefsSubmittedAt) ==>
                nav == Some(Navigation(Interview(token.value), false)) &&
                error == old(error) && loading == old(loading) &&
                contributor == old(contributor) && values == old(values)
      ensures Truthy(token) && row.Some? && !Truthy(row.value.prefsSubmittedAt) ==>
                nav.None? && error == old(error) && !loading &&
                contributor == row && values == Restore(old(values), row.value.prefs)
      ensures saving == old(saving)
    {
      nav := None;
      if !Truthy(token) {
        error := Some(InvalidLinkError);
        loading := false;
        return;
      }
      if row.None? {
        error := Some(ExpiredLinkError);
        loading := false;
        return;
      }
      if Truthy(row.value.prefsSubmittedAt) {
        nav := Some(Navigation(Interview(token.value), false));
        return;
      }
      values := Restore(values, row.value.prefs);
      contributor := row;
      loading := false;
    }

    /** `handleBucketChange`: one slider moves, nothing else does. */
    method BucketChange(key: string, value: int)
      modifies this`values
      ensures values == old(values).(bucketVotes := SetVote(old(values).bucketVotes, key, value))
      ensures Shown(values.bucketVotes, key) == value
      ensures forall k :: k != key ==> Percent(values.bucketVotes, k) == Percent(old(values).bucketVotes, k)
      ensures Total(values.bucketVotes) == Total(old(values).bucketVotes) - Shown(old(values).bucketVotes, key) + value
    {
      var v := values.bucketVotes;
      SetVoteTotal(v, key, value);
      SetVoteLookup(v, key, value, key);
      forall k | k != key
        ensures Percent(SetVote(v, key, value), k) == Percent(v, k)
      {
        SetVoteLookup(v, key, value, k);
      }
      values := values.(bucketVotes := SetVote(v, key, value));
    }

    /** `saveProgress`: writes the draft to the loaded contributor's row; does
        nothing before a contributor is loaded. The outcome is not checked. */
    method SaveProgress(db: Database, fail: bool)
      requires db.Valid()
      modifies this`saving, db
      ensures db.Valid()
      ensures contributor.None? || contributor.value.id == "" ==>
                unchanged(db) && saving == old(saving)
      ensures contributor.Some? && contributor.value.id != "" ==>
                !saving &&
                db.journal == old(db.journal) + [UpdateContributor(contributor.value.id, PrefsPatch(AutosavePrefs(values), None))] &&
                db.contributors == (if !fail && contributor.value.id in old(db.contributors)
                                    then old(db.contributors)[contributor.value.id := Apply(old(db.contributors)[contributor.value.id], PrefsPatch(AutosavePrefs(values), None))]
                                    else old(db.contributors)) &&
                db.sessions == old(db.sessions) && db.messages == old(db.messages)
    {
      if contributor.None? || contributor.value.id == "" {
        return;
      }
      saving := true;
      var _ := db.Update(contributor.value.id, PrefsPatch(AutosavePrefs(values), None), fail);
      saving := false;
    }

    /** `handleSubmit`, reachable once a contributor is loaded (the form is
        rendered only then). A blocked submit alerts and does nothing else;
        otherwise the row is written with the submit payload and the time
        `now`, and the page moves to the interview whatever the write did. */
    method Submit(db: Database, now: string, fail: bool) returns (nav: Option<Navigation>, alert: Option<string>)
      requires Valid() && db.Valid() && contributor.Some?
      modifies db
      ensures db.Valid()
      ensures SubmitBlocked(values) ==>
                nav.None? && alert == Some(SumAlert) && unchanged(db)
      ensures !SubmitBlocked(values) ==>
                alert.None? && nav == Some(Navigation(Interview(token.value), false)) &&
                db.journal == old(db.journal) + [UpdateContributor(contributor.value.id, PrefsPatch(SubmitPrefs(values), Some(now)))] &&
                db.contributors == (if !fail && contributor.value.id in old(db.contributors)
                                    then old(db.contributors)[contributor.value.id := Apply(old(db.contributors)[contributor.value.id], PrefsPatch(SubmitPrefs(values), Some(now)))]
                                    else old(db.contributors)) &&
                db.sessions == old(db.sessions) && db.messages == old(db.messages)
    {
      if SubmitBlocked(values) {
        return None, Some(SumAlert);
      }
      var _ := db.Update(contributor.value.id, PrefsPatch(SubmitPrefs(values), Some(now)), fail);
      return Some(Navigation(Interview(token.value), false)), None;
    }
  }

  /** A submit accepted by the gate writes a row whose submitted-at marker is
      the time of the submit and whose bucket votes follow the defer flag. */
  lemma SubmittedRow(c: Contributor, d: Draft, now: string)
    requires !SubmitBlocked(d)
    ensures var r := Apply(c, PrefsPatch(SubmitPrefs(d), Some(now)));
      r.prefsSubmittedAt == Some(now) &&
      (r.prefs.bucketVotes.Some? ==> Total(r.prefs.bucketVotes.value) == 100) &&
      (r.prefs.bucketVotes.None? <==> d.bucketDeferred)
  {
  }
}
