/**
 * The challenge store: the global challenge list, the current user's joined
 * subset, and the shared `isLoading` and `error` flags. Joining and leaving
 * each read the challenge row afresh, rewrite its participants list, persist
 * it, and then patch both local lists. The current user and every remote
 * result are parameters; no action re-raises.
 */
module Challenges {
  import opened Options
  import opened Gateway
  import opened Seqs
  import opened Auth

  type ChallengeId = string

  datatype Challenge = Challenge(
    id: ChallengeId,
    name: string,
    description: string,
    startDate: string,
    endDate: string,
    participants: seq<UserId>,
    createdAt: string)

  function HasId(id: ChallengeId): Challenge -> bool {
    (c: Challenge) => c.id == id
  }

  function LacksId(id: ChallengeId): Challenge -> bool {
    (c: Challenge) => c.id != id
  }

  function IsNot(user: UserId): UserId -> bool {
    (u: UserId) => u != user
  }

  function SetParticipantsIf(id: ChallengeId, ps: seq<UserId>): Challenge -> Challenge {
    (c: Challenge) => if c.id == id then c.(participants := ps) else c
  }

  /** `{ ...c, participants: ps }` on every entry with the id. */
  function WithParticipants(cs: seq<Challenge>, id: ChallengeId, ps: seq<UserId>): seq<Challenge> {
    Map(cs, SetParticipantsIf(id, ps))
  }

  /** The joined list after leaving: every entry without the id. */
  function WithoutChallenge(cs: seq<Challenge>, id: ChallengeId): seq<Challenge> {
    Filter(cs, LacksId(id))
  }

  /** The participants list after leaving: every occurrence of the user removed. */
  function WithoutUser(ps: seq<UserId>, user: UserId): seq<UserId> {
    Filter(ps, IsNot(user))
  }

  /** How many entries of a list carry the id. */
  function Occurrences(cs: seq<Challenge>, id: ChallengeId): nat {
    |Filter(cs, HasId(id))|
  }

  // ---------------------------------------------------------------------------

  /** Patching participants keeps the length, rewrites only the entries with the id, and only their participants. */
  lemma {:induction false} WithParticipantsAt(cs: seq<Challenge>, id: ChallengeId, ps: seq<UserId>, k: nat)
    requires k < |cs|
    ensures |WithParticipants(cs, id, ps)| == |cs|
    ensures cs[k].id == id ==> WithParticipants(cs, id, ps)[k] == cs[k].(participants := ps)
    ensures cs[k].id != id ==> WithParticipants(cs, id, ps)[k] == cs[k]
  {
    MapAt(cs, SetParticipantsIf(id, ps), k);
  }

  /** Leaving removes the user entirely and keeps every other participant as often as before. */
  lemma {:induction false} WithoutUserCounts(ps: seq<UserId>, user: UserId, u: UserId)
    ensures multiset(WithoutUser(ps, user))[u] == if u == user then 0 else multiset(ps)[u]
  {
    FilterCount(ps, IsNot(user), u);
  }

  /** The remaining participants keep their order. */
  lemma {:induction false} WithoutUserAppend(a: seq<UserId>, b: seq<UserId>, user: UserId)
    ensures WithoutUser(a + b, user) == WithoutUser(a, user) + WithoutUser(b, user)
  {
    FilterAppend(a, b, IsNot(user));
  }

  /** Leaving a challenge one is not in leaves the list as it was. */
  lemma {:induction false} WithoutUserAbsent(ps: seq<UserId>, user: UserId)
    requires user !in ps
    ensures WithoutUser(ps, user) == ps
  {
    FilterKeepsAll(ps, IsNot(user));
  }

  /** After leaving, the joined list has no entry with the id and keeps every other entry. */
  lemma {:induction false} WithoutChallengeMembers(cs: seq<Challenge>, id: ChallengeId, c: Challenge)
    ensures c in WithoutChallenge(cs, id) <==> c in cs && c.id != id
  {
    FilterMembers(cs, LacksId(id), c);
  }

  /** Appending one entry adds one occurrence of its own id and none of any other. */
  lemma {:induction false} OccurrencesAppend(cs: seq<Challenge>, c: Challenge, id: ChallengeId)
    ensures Occurrences(cs + [c], id) == Occurrences(cs, id) + (if c.id == id then 1 else 0)
  {
    FilterAppend(cs, [c], HasId(id));
    assert Filter([c], HasId(id)) == (if c.id == id then [c] else []) + Filter([], HasId(id));
  }

  // ---------------------------------------------------------------------------

  class ChallengeStore {
    var challenges: seq<Challenge>
    var userChallenges: seq<Challenge>
    var isLoading: bool
    var error: Option<string>

    constructor ()
      ensures challenges == [] && userChallenges == [] && !isLoading && error == None
    {
      challenges := [];
      userChallenges := [];
      isLoading := false;
      error := None;
    }

    /** Replace the global list with all rows (ordered by start date at the gateway); the joined list is not touched. */
    method FetchChallenges(response: Response<Option<seq<Challenge>>>)
      modifies this
      ensures !isLoading && userChallenges == old(userChallenges)
      ensures response.Ok? ==> challenges == OrEmpty(response.value) && error == None
      ensures response.Err? ==> challenges == old(challenges) && error == Some(response.message)
    {
      isLoading := true;
      error := None;
      match response {
      case Ok(data) =>
        challenges := OrEmpty(data);
      case Err(message) =>
        error := Some(message);
      }
      isLoading := false;
    }

    /**
     * Replace the joined list with the rows whose participants contain the
     * current user; the global list is not touched. Without a user nothing
     * changes.
     */
    method FetchUserChallenges(currentUser: Option<UserId>, response: Response<Option<seq<Challenge>>>)
      modifies this
      ensures challenges == old(challenges)
      ensures currentUser.None? ==>
        userChallenges == old(userChallenges) && isLoading == old(isLoading) && error == old(error)
      ensures currentUser.Some? ==> !isLoading
      ensures currentUser.Some? && response.Ok? ==> userChallenges == OrEmpty(response.value) && error == None
      ensures currentUser.Some? && response.Err? ==>
        userChallenges == old(userChallenges) && error == Some(response.message)
    {
      if currentUser.None? {
        return;
      }
      isLoading := true;
      error := None;
      match response {
      case Ok(data) =>
        userChallenges := OrEmpty(data);
      case Err(message) =>
        error := Some(message);
      }
      isLoading := false;
    }

    /**
     * Join challenge `id`. `fetched` is the freshly read row, `update` the
     * result of persisting the new participants list, and `persisted` that
     * list when it is sent. A user already listed in the fresh row causes no
     * write and no list change. Otherwise the user is appended once; on
     * success the global entries with the id get the new list and the
     * fetched row (as read, before the join) is appended to the joined list.
     */
    method JoinChallenge(currentUser: Option<UserId>, id: ChallengeId,
                         fetched: Response<Challenge>, update: Outcome)
      returns (persisted: Option<seq<UserId>>)
      modifies this
      ensures currentUser.None? ==>
        persisted == None && challenges == old(challenges) && userChallenges == old(userChallenges) &&
        isLoading == old(isLoading) && error == old(error)
      ensures currentUser.Some? ==> !isLoading
      ensures currentUser.Some? && fetched.Err? ==>
        persisted == None && challenges == old(challenges) && userChallenges == old(userChallenges) &&
        error == Some(fetched.message)
      ensures currentUser.Some? && fetched.Ok? && currentUser.value in fetched.value.participants ==>
        persisted == None && challenges == old(challenges) && userChallenges == old(userChallenges) &&
        error == None
      ensures currentUser.Some? && fetched.Ok? && currentUser.value !in fetched.value.participants ==>
        persisted == Some(fetched.value.participants + [currentUser.value]) &&
        multiset(persisted.value)[currentUser.value] == 1
      ensures currentUser.Some? && fetched.Ok? && currentUser.value !in fetched.value.participants &&
              update.Failed? ==>
        challenges == old(challenges) && userChallenges == old(userChallenges) &&
        error == Some(update.message)
      ensures currentUser.Some? && fetched.Ok? && currentUser.value !in fetched.value.participants &&
              update.Done? ==>
        challenges == WithParticipants(old(challenges), id, persisted.value) &&
        userChallenges == old(userChallenges) + [fetched.value] &&
        error == None
      ensures currentUser.Some? && fetched.Ok? && currentUser.value !in fetched.value.participants &&
              update.Done? ==>
        |challenges| == |old(challenges)| &&
        (forall k :: 0 <= k < |challenges| ==>
           challenges[k] == if old(challenges)[k].id == id
                            then old(challenges)[k].(participants := persisted.value)
                            else old(challenges)[k]) &&
        |userChallenges| == |old(userChallenges)| + 1 &&
        currentUser.value !in userChallenges[|old(userChallenges)|].participants
    {
      if currentUser.None? {
        return None;
      }
      var user := currentUser.value;
      isLoading := true;
      error := None;
      persisted := None;
      match fetched {
      case Err(message) =>
        error := Some(message);
      case Ok(challenge) =>
        if user !in challenge.participants {
          var updated := challenge.participants + [user];
          persisted := Some(updated);
          match update {
          case Failed(message) =>
            error := Some(message);
          case Done =>
            challenges := WithParticipants(challenges, id, updated);
            userChallenges := userChallenges + [challenge];
            forall k | 0 <= k < |old(challenges)|
              ensures challenges[k] == if old(challenges)[k].id == id
                                       then old(challenges)[k].(participants := updated)
                                       else old(challenges)[k]
            {
              WithParticipantsAt(old(challenges), id, updated, k);
            }
          }
        }
      }
      isLoading := false;
    }

    /**
     * Leave challenge `id`: the fresh row's participants without the user
     * (unchanged when the user was not listed) are always persisted
     * (`persisted`); on success the global entries with the id get that list
     * and the joined list loses every entry with the id.
     */
    method LeaveChallenge(currentUser: Option<UserId>, id: ChallengeId,
                          fetched: Response<Challenge>, update: Outcome)
      returns (persisted: Option<seq<UserId>>)
      modifies this
      ensures currentUser.None? ==>
        persisted == None && challenges == old(challenges) && userChallenges == old(userChallenges) &&
        isLoading == old(isLoading) && error == old(error)
      ensures currentUser.Some? ==> !isLoading
      ensures currentUser.Some? && fetched.Err? ==>
        persisted == None && challenges == old(challenges) && userChallenges == old(userChallenges) &&
        error == Some(fetched.message)
      ensures currentUser.Some? && fetched.Ok? ==>
        persisted == Some(WithoutUser(fetched.value.participants, currentUser.value)) &&
        currentUser.value !in persisted.value &&
        (currentUser.value !in fetched.value.participants ==> persisted.value == fetched.value.participants)
      ensures currentUser.Some? && fetched.Ok? && update.Failed? ==>
        challenges == old(challenges) && userChallenges == old(userChallenges) &&
        error == Some(update.message)
      ensures currentUser.Some? && fetched.Ok? && update.Done? ==>
        challenges == WithParticipants(old(challenges), id, persisted.value) &&
        userChallenges == WithoutChallenge(old(userChallenges), id) &&
        error == None
      ensures currentUser.Some? && fetched.Ok? && update.Done? ==>
        (forall k :: 0 <= k < |old(challenges)| && old(challenges)[k].id != id ==>
           challenges[k] == old(challenges)[k]) &&
        (forall c :: c in userChallenges <==> c in old(userChallenges) && c.id != id)
    {
      if currentUser.None? {
        return None;
      }
      var user := currentUser.value;
      isLoading := true;
      error := None;
      persisted := None;
      match fetched {
      case Err(message) =>
        error := Some(message);
      case Ok(challenge) =>
        var updated := WithoutUser(challenge.participants, user);
        WithoutUserCounts(challenge.participants, user, user);
        if user !in challenge.participants {
          WithoutUserAbsent(challenge.participants, user);
        }
        persisted := Some(updated);
        match update {
        case Failed(message) =>
          error := Some(message);
        case Done =>
          challenges := WithParticipants(challenges, id, updated);
          userChallenges := WithoutChallenge(userChallenges, id);
          forall k | 0 <= k < |old(challenges)| && old(challenges)[k].id != id
            ensures challenges[k] == old(challenges)[k]
          {
            WithParticipantsAt(old(challenges), id, updated, k);
          }
          forall c
            ensures c in userChallenges <==> c in old(userChallenges) && c.id != id
          {
            WithoutChallengeMembers(old(userChallenges), id, c);
          }
        }
      }
      isLoading := false;
    }
  }

  /**
   * Joining twice is joining once: after a successful join, a second join
   * whose fresh read shows the persisted participants writes nothing, and the
   * user is then listed exactly once in every global entry with the id and
   * the joined list holds exactly one entry with the id.
   */
  method JoinTwice(store: ChallengeStore, user: UserId, id: ChallengeId, row: Challenge,
                   firstUpdate: Outcome, secondUpdate: Outcome)
    returns (first: Option<seq<UserId>>, second: Option<seq<UserId>>)
    requires row.id == id && user !in row.participants
    requires Occurrences(store.userChallenges, id) == 0
    requires firstUpdate.Done?
    modifies store
    ensures first == Some(row.participants + [user]) && second == None
    ensures store.challenges == WithParticipants(old(store.challenges), id, first.value)
    ensures store.userChallenges == old(store.userChallenges) + [row]
    ensures store.error == None && !store.isLoading
    ensures Occurrences(store.userChallenges, id) == 1
    ensures forall c :: c in store.challenges && c.id == id ==> multiset(c.participants)[user] == 1
  {
    first := store.JoinChallenge(Some(user), id, Ok(row), firstUpdate);
    second := store.JoinChallenge(Some(user), id, Ok(row.(participants := first.value)), secondUpdate);
    OccurrencesAppend(old(store.userChallenges), row, id);
    forall c | c in store.challenges && c.id == id
      ensures multiset(c.participants)[user] == 1
    {
      var k :| 0 <= k < |store.challenges| && store.challenges[k] == c;
    }
  }
}
