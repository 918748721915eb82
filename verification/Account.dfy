/** Deleting an account: the billing gate, the workspaces it owns, its memberships, and the user itself. */
module Account {
  import opened Prelude
  import opened BillingRows

  type UserId = nat
  type WorkspaceId = nat

  datatype Role = Owner | Editor | Viewer

  /** A user's password check is one bit here; a workspace's contents are one number. */
  datatype Tables = Tables(
    users: set<UserId>, members: map<(UserId, WorkspaceId), Role>, workspaces: map<WorkspaceId, nat>, contracts: map<UserId, Rows>,
    detached: seq<Rows>)

  datatype Outcome = Deleted | UserNotFound | InvalidCredentials | BillingBlocked | SharedWorkspaces(blocking: set<WorkspaceId>)

  /** Members are users of workspaces that exist, and a contract has its user. */
  predicate Valid(t: Tables) {
    && (forall k :: k in t.members ==> k.0 in t.users && k.1 in t.workspaces)
    && (forall u :: u in t.contracts ==> u in t.users && t.contracts[u].c.hasUser)
  }

  predicate Owns(t: Tables, user: UserId, w: WorkspaceId) {
    (user, w) in t.members && t.members[(user, w)] == Owner
  }

  function MembersOf(t: Tables, w: WorkspaceId): set<UserId> {
    set k | k in t.members && k.1 == w :: k.0
  }

  /** The owned workspaces with other members: deleting them would destroy someone else's data. */
  function Shared(t: Tables, user: UserId): set<WorkspaceId> {
    set k | k in t.members && k.0 == user && Owns(t, user, k.1) && |MembersOf(t, k.1)| > 1 :: k.1
  }

  function OwnedBy(t: Tables, user: UserId): set<WorkspaceId> {
    set k | k in t.members && k.0 == user && t.members[k] == Owner :: k.1
  }

  function Remaining(t: Tables, user: UserId): map<(UserId, WorkspaceId), Role> {
    map k | k in t.members && k.1 !in OwnedBy(t, user) && k.0 != user :: t.members[k]
  }

  predicate Gate(t: Tables, user: UserId) {
    user in t.contracts ==> DeletionGate(t.contracts[user])
  }

  class AccountStore {
    var users: set<UserId>
    var members: map<(UserId, WorkspaceId), Role>
    var workspaces: map<WorkspaceId, nat>
    var contracts: map<UserId, Rows>
    var detached: seq<Rows>

    constructor (t: Tables)
      ensures Current() == t
    {
      users, members, workspaces, contracts, detached := t.users, t.members, t.workspaces, t.contracts, t.detached;
    }

    function Current(): Tables
      reads this
    {
      Tables(users, members, workspaces, contracts, detached)
    }

    /** `workspace.deleteMany`, which takes the workspaces' membership rows with it. */
    method DeleteWorkspaces(ids: set<WorkspaceId>)
      modifies this`workspaces, this`members
      ensures workspaces == old(workspaces) - ids
      ensures members == map k | k in old(members) && k.1 !in ids :: old(members)[k]
    {
      workspaces := workspaces - ids;
      members := map k | k in members && k.1 !in ids :: members[k];
    }

    method DeleteMemberships(user: UserId)
      modifies this`members
      ensures members == map k | k in old(members) && k.0 != user :: old(members)[k]
    {
      members := map k | k in members && k.0 != user :: members[k];
    }

    /** Deleting the user row; the contract stays, with its user set to null. */
    method DeleteUser(user: UserId)
      modifies this`users, this`contracts, this`detached
      ensures users == old(users) - {user} && contracts == old(contracts) - {user}
      ensures detached == old(detached) + if user in old(contracts) then [DetachUser(old(contracts)[user])] else []
    {
      users := users - {user};
      if user in contracts {
        detached := detached + [DetachUser(contracts[user])];
      }
      contracts := contracts - {user};
    }

    method DeleteAccount(user: UserId, passwordMatches: bool) returns (outcome: Outcome)
      requires Valid(Current())
      modifies this
      ensures Valid(Current())
      ensures outcome == ExpectedOutcome(old(Current()), user, passwordMatches)
      ensures !outcome.Deleted? ==> Current() == old(Current())
      ensures outcome.Deleted? ==> IsDeletion(old(Current()), Current(), user)
    {
      hide DeletionGate, Shared, Valid, IsDeletion, OwnedBy;
      if user !in users {
        return UserNotFound;
      }
      if !passwordMatches {
        return InvalidCredentials;
      }
      if user in contracts && !DeletionGate(contracts[user]) {
        return BillingBlocked;
      }
      var blocking := Shared(Current(), user);
      if blocking != {} {
        return SharedWorkspaces(blocking);
      }
      ghost var before := Current();
      var owned := OwnedBy(Current(), user);
      if owned != {} {
        DeleteWorkspaces(owned);
      }
      DeleteMemberships(user);
      DeleteUser(user);
      outcome := Deleted;
      assert members == Remaining(before, user);
      Deletes(before, Current(), user);
    }
  }

  function DetachUser(r: Rows): Rows {
    r.(c := r.c.(hasUser := false))
  }

  function ExpectedOutcome(t: Tables, user: UserId, passwordMatches: bool): Outcome {
    if user !in t.users then UserNotFound
    else if !passwordMatches then InvalidCredentials
    else if !Gate(t, user) then BillingBlocked
    else if Shared(t, user) != {} then SharedWorkspaces(Shared(t, user))
    else Deleted
  }

  /** Exactly the user, the user's own memberships and the workspaces the user owns are gone; nobody else loses a
      membership, a workspace or its contents. */
  ghost predicate IsDeletion(t: Tables, after': Tables, user: UserId) {
    && after'.users == t.users - {user}
    && (forall k :: k in after'.members <==> k in t.members && k.0 != user)
    && (forall k :: k in after'.members ==> after'.members[k] == t.members[k])
    && (forall w :: w in after'.workspaces <==> w in t.workspaces && !Owns(t, user, w))
    && (forall w :: w in after'.workspaces ==> after'.workspaces[w] == t.workspaces[w])
    && after'.contracts == t.contracts - {user}
    && after'.detached == t.detached + if user in t.contracts then [DetachUser(t.contracts[user])] else []
  }

  /** A workspace owned and not shared has no other member. */
  lemma OwnedAlone(t: Tables, user: UserId, w: WorkspaceId, other: UserId)
    requires Owns(t, user, w) && w !in Shared(t, user) && (other, w) in t.members
    ensures other == user
  {
    var m := MembersOf(t, w);
    assert (user, w) in t.members && (other, w) in t.members;
    assert user in m && other in m;
    if other != user {
      assert {user, other} <= m;
      SubsetSize({user, other}, m);
    }
  }

  lemma {:induction false} SubsetSize(a: set<nat>, b: set<nat>)
    requires a <= b
    ensures |a| <= |b|
    decreases a
  {
    if x :| x in a {
      SubsetSize(a - {x}, b - {x});
    }
  }

  lemma OwnedAloneAll(t: Tables, user: UserId)
    requires Shared(t, user) == {}
    ensures forall k :: k in t.members && Owns(t, user, k.1) ==> k.0 == user
  {
    hide Shared, Owns;
    forall k | k in t.members && Owns(t, user, k.1)
      ensures k.0 == user
    {
      assert k == (k.0, k.1);
      OwnedAlone(t, user, k.1, k.0);
    }
  }

  lemma OwnedByOwns(t: Tables, user: UserId, w: WorkspaceId)
    ensures w in OwnedBy(t, user) <==> Owns(t, user, w)
  {
    if Owns(t, user, w) {
      assert (user, w) in t.members;
    }
  }

  lemma Deletes(t: Tables, after': Tables, user: UserId)
    requires Valid(t) && user in t.users && Shared(t, user) == {}
    requires after'.users == t.users - {user} && after'.members == Remaining(t, user)
    requires after'.workspaces == t.workspaces - OwnedBy(t, user) && after'.contracts == t.contracts - {user}
    requires after'.detached == t.detached + if user in t.contracts then [DetachUser(t.contracts[user])] else []
    ensures IsDeletion(t, after', user) && Valid(after')
  {
    hide Shared, OwnedBy, Owns, DeletionGate;
    OwnedAloneAll(t, user);
    forall w
      ensures w in OwnedBy(t, user) <==> Owns(t, user, w)
    {
      OwnedByOwns(t, user, w);
    }
  }

  /** Deletion conserves what belongs to others: whoever else was a member of a workspace still is, in the same role,
      of a workspace with the same contents. */
  lemma OthersLoseNothing(t: Tables, after': Tables, user: UserId, other: UserId, w: WorkspaceId)
    requires Valid(t) && ExpectedOutcome(t, user, true).Deleted? && IsDeletion(t, after', user)
    requires other != user && (other, w) in t.members
    ensures (other, w) in after'.members && after'.members[(other, w)] == t.members[(other, w)]
    ensures w in after'.workspaces && after'.workspaces[w] == t.workspaces[w] && other in after'.users
  {
    hide Shared, MembersOf, DeletionGate;
    if Owns(t, user, w) {
      OwnedAlone(t, user, w, other);
    }
  }

  /** The account's contract goes through exactly the deletion of the billing protocol, so what is proved of a
      detached contract holds of the one left behind. */
  lemma {:induction false} DeletesTheContract(t: Tables, user: UserId, passwordMatches: bool)
    requires Valid(t) && user in t.contracts
    ensures var r := t.contracts[user];
      ExpectedOutcome(t, user, passwordMatches).Deleted? <==>
        passwordMatches && DeleteAccountTx(r, Shared(t, user) != {}) == Ok(DetachUser(r), ())
  {
    hide DeletionGate, Shared;
  }
}
