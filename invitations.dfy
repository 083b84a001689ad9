/**
 * app/composables/useInvitations.ts: the `user_invitations` table and the
 * invitation lifecycle. An invitation is pending until `acceptedAt` is set;
 * sending refuses a second pending invitation for one address, accepting
 * creates the account, the profile row and the client session.
 */
module Invitations {
  import opened Wrappers
  import opened Sorting
  import opened Auth
  import opened AuthSync
  import InvitationEmail

  const NotAuthenticatedMessage: string := "User not authenticated"
  const AlreadyInvitedMessage: string := "Invitation already exists"
  const InvalidTokenMessage: string := "Invalid token"
  const TokenExpiredMessage: string := "Token expired"
  const UserCreationFailedMessage: string := "User creation failed"
  /** What `toISOString()` throws for a missing or out-of-range instant. */
  const InvalidTimeValueMessage: string := "Invalid time value"

  const DayMs: int := 24 * 60 * 60 * 1000
  /** `resendInvitation` moves the expiry to seven days from now. */
  const ResendDays: int := 7
  /** The refresh expiry saved at acceptance is one day (in seconds) past the session's expiry. */
  const RefreshGraceSeconds: int := 86400

  /** A `user_invitations` row; `expiresAt` is the timestamp as stored. */
  datatype Invitation = Invitation(
    id: Id,
    email: string,
    name: string,
    role: string,
    invitedBy: Id,
    inviteToken: string,
    expiresAt: Stamp,
    acceptedAt: Option<int>,
    createdAt: int)

  /** The argument of `sendInvitation`. */
  datatype NewInvitation = NewInvitation(email: string, name: string, role: string)

  /** What the database fills in on insert: the token and the expiry. */
  datatype Issued = Issued(token: string, expiresAt: Stamp)

  /** The answer of `validateToken`. */
  datatype Validation = Valid(invitation: Invitation) | Invalid(error: string)

  /** The auth provider's answer to `signUp`. */
  datatype SignUpReply = SignUpError(message: string) | NoUser | SignedUp(userId: Id)

  /** The auth provider's answer to `signInWithPassword`. */
  datatype SignInReply = SignInError(message: string) | SignedInWith(session: Option<Session>)

  predicate Pending(inv: Invitation) {
    inv.acceptedAt.None?
  }

  /** Every row is stored under its own id, below the next id. */
  ghost predicate WellFormed(table: map<Id, Invitation>, nextId: Id) {
    forall id :: id in table ==> table[id].id == id && id < nextId
  }

  /** No address has two pending invitations. */
  ghost predicate AtMostOnePending(table: map<Id, Invitation>) {
    forall i, j :: i in table && j in table && Pending(table[i]) && Pending(table[j]) && table[i].email == table[j].email ==> i == j
  }

  /** The pending-duplicate query: some unaccepted row has this address. */
  predicate HasPendingFor(table: map<Id, Invitation>, email: string) {
    exists id :: id in table && Pending(table[id]) && table[id].email == email
  }

  /** The ids below `n` of the unaccepted rows carrying `token`, ascending. */
  function PendingWithToken(table: map<Id, Invitation>, n: nat, token: string): (ids: seq<Id>)
    ensures forall id :: id in ids <==> id < n && id in table && Pending(table[id]) && table[id].inviteToken == token
    ensures forall i, j :: 0 <= i < j < |ids| ==> ids[i] < ids[j]
    ensures forall i :: 0 <= i < |ids| ==> ids[i] < n
  {
    if n == 0 then []
    else
      var ids := PendingWithToken(table, n - 1, token);
      if n - 1 in table && Pending(table[n - 1]) && table[n - 1].inviteToken == token then ids + [n - 1] else ids
  }

  /** `new Date(expires_at)`: the instant the stored timestamp denotes. */
  function ExpiryOf(stamp: Stamp, parse: string -> Option<int>): Date {
    match stamp
    case IsoOf(ms) => Instant(ms)
    case Text(s) => if parse(s).Some? then Instant(parse(s).value) else InvalidDate
  }

  /** `now > expiresAt`; an Invalid Date makes the comparison false. */
  predicate Expired(stamp: Stamp, now: int, parse: string -> Option<int>) {
    ExpiryOf(stamp, parse).Instant? && now > ExpiryOf(stamp, parse).ms
  }

  /**
   * `validateToken(token)` at clock reading `now`: `.single()` over the
   * unaccepted rows with the token yields a row only when there is exactly
   * one; `readFails` is a query error.
   */
  function ValidateToken(table: map<Id, Invitation>, n: nat, token: string, now: int, readFails: bool, parse: string -> Option<int>): (v: Validation)
    ensures v.Valid? <==>
      !readFails && |PendingWithToken(table, n, token)| == 1
      && !Expired(table[PendingWithToken(table, n, token)[0]].expiresAt, now, parse)
    ensures v == Invalid(InvalidTokenMessage) <==> readFails || |PendingWithToken(table, n, token)| != 1
    ensures v == Invalid(TokenExpiredMessage) <==>
      !readFails && |PendingWithToken(table, n, token)| == 1 && Expired(table[PendingWithToken(table, n, token)[0]].expiresAt, now, parse)
    ensures v.Valid? ==>
      var id := PendingWithToken(table, n, token)[0];
      v.invitation == table[id] && Pending(v.invitation) && v.invitation.inviteToken == token
  {
    var ids := PendingWithToken(table, n, token);
    if readFails || |ids| != 1 then Invalid(InvalidTokenMessage)
    else if Expired(table[ids[0]].expiresAt, now, parse) then Invalid(TokenExpiredMessage)
    else Valid(table[ids[0]])
  }

  /** The table after the row `id` is marked accepted at `now`. */
  function Accepted(table: map<Id, Invitation>, id: Id, now: int): (t: map<Id, Invitation>)
    requires id in table
    ensures t.Keys == table.Keys && t[id].acceptedAt == Some(now)
    ensures forall k :: k in table && k != id ==> t[k] == table[k]
  {
    table[id := table[id].(acceptedAt := Some(now))]
  }

  /** The table after `resendInvitation(id)` at `now`; an unknown id matches no row. */
  function Resent(table: map<Id, Invitation>, id: Id, now: int): (t: map<Id, Invitation>)
    ensures t.Keys == table.Keys
    ensures id in table ==> t[id] == table[id].(expiresAt := IsoOf(now + ResendDays * DayMs))
    ensures forall k :: k in table && k != id ==> t[k] == table[k]
  {
    if id in table then table[id := table[id].(expiresAt := IsoOf(now + ResendDays * DayMs))] else table
  }

  /**
   * The tokens saved after acceptance: the access expiry is the session's
   * expiry (seconds) in milliseconds, the refresh expiry one day later. None
   * when `toISOString()` throws on a missing or out-of-range instant.
   */
  function AcceptedTokens(s: Session): (r: Option<Tokens>)
    ensures r.Some? <==>
      s.expiresAt.Some? && Representable(s.expiresAt.value * 1000)
      && Representable((s.expiresAt.value + RefreshGraceSeconds) * 1000)
    ensures r.Some? ==>
      r.value.accessToken == s.accessToken && r.value.refreshToken == s.refreshToken && r.value.tokenType == s.tokenType
  {
    if s.expiresAt.Some? && Representable(s.expiresAt.value * 1000)
      && Representable((s.expiresAt.value + RefreshGraceSeconds) * 1000)
    then
      Some(Tokens(s.accessToken, IsoOf(s.expiresAt.value * 1000), s.refreshToken,
        IsoOf((s.expiresAt.value + RefreshGraceSeconds) * 1000), s.tokenType))
    else None
  }

  /** The unaccepted invitations, newest first (the inviter join is left out). */
  function PendingInvitations(rows: seq<Invitation>): (r: seq<Invitation>)
    ensures SortedDescBy(r, CreatedAtOf)
    ensures forall x :: x in r <==> x in rows && Pending(x)
  {
    var pending := Filter(rows, Pending);
    var r := SortDescBy(pending, CreatedAtOf);
    FilterMembers(rows, Pending);
    SameMembers(pending, r);
    r
  }

  function CreatedAtOf(inv: Invitation): int {
    inv.createdAt
  }

  /** The invitation rows, the auth accounts and profile rows acceptance creates, and the client. */
  class InvitationBook {
    /** The `user_invitations` table. */
    var invitations: map<Id, Invitation>
    var nextId: Id
    /** The auth provider's accounts: id to address. */
    var accounts: map<Id, string>
    /** The `user_profiles` table. */
    var profiles: map<Id, UserProfile>
    const client: ClientState

    constructor (client: ClientState)
      ensures invitations == map[] && nextId == 0 && accounts == map[] && profiles == map[]
      ensures this.client == client
    {
      invitations := map[];
      nextId := 0;
      accounts := map[];
      profiles := map[];
      this.client := client;
    }

    /** The rows by ascending id. */
    function Rows(): (rows: seq<Invitation>)
      reads this
      ensures forall id :: id in invitations && id < nextId ==> invitations[id] in rows
      ensures forall x :: x in rows ==> x in invitations.Values
    {
      RowsOf(invitations, nextId)
    }

    /**
     * `sendInvitation(d)` by the signed-in user `session` at `now`.
     * `lookupFails` is whether the duplicate query errs: the code then sees
     * no rows and goes on. The mail is sent through the edge function; its
     * outcome (`mailer`, `callerKnown`) only chooses a toast.
     */
    method SendInvitation(d: NewInvitation, session: Option<Id>, now: int, lookupFails: bool, issued: Issued,
                          callerKnown: bool, mailer: InvitationEmail.ProviderReply)
      returns (r: Result<Invitation>)
      requires WellFormed(invitations, nextId)
      modifies this
      ensures WellFormed(invitations, nextId)
      ensures accounts == old(accounts) && profiles == old(profiles)
      ensures session.None? ==> r == Err(NotAuthenticatedMessage)
      ensures session.Some? ==>
        (r == Err(AlreadyInvitedMessage) <==> !lookupFails && HasPendingFor(old(invitations), d.email))
      ensures r.Err? ==> invitations == old(invitations) && nextId == old(nextId)
      ensures r.Ok? ==>
        session.Some?
        && r.value == Invitation(old(nextId), d.email, d.name, d.role, session.value, issued.token, issued.expiresAt, None, now)
        && invitations == old(invitations)[old(nextId) := r.value] && nextId == old(nextId) + 1
      ensures r.Ok? && AtMostOnePending(old(invitations)) && !lookupFails ==> AtMostOnePending(invitations)
    {
      if session.None? {
        return Err(NotAuthenticatedMessage);
      }
      if !lookupFails && HasPendingFor(invitations, d.email) {
        return Err(AlreadyInvitedMessage);
      }
      var insertFails: bool := *;
      if insertFails {
        return Err(DatabaseErrorMessage);
      }
      var row := Invitation(nextId, d.email, d.name, d.role, session.value, issued.token, issued.expiresAt, None, now);
      invitations := invitations[nextId := row];
      nextId := nextId + 1;
      // Fire and forget: the edge function's answer does not reach the result.
      // `functions.invoke` sends the session's bearer token as the Authorization header.
      var request := InvitationEmail.Request("POST", Some("Bearer"),
        Ok(InvitationEmail.EmailRequest(Some(d.email), Some(d.name), Some(issued.token))));
      var _ := InvitationEmail.Handle(request, callerKnown, mailer);
      r := Ok(row);
    }

    /** `validateToken(token)` against the current table, with the client's date parser. */
    function Validate(token: string, now: int, readFails: bool): (v: Validation)
      reads this
      ensures v.Valid? ==> v.invitation in invitations.Values && Pending(v.invitation) && v.invitation.inviteToken == token
      ensures v.Valid? ==> !Expired(v.invitation.expiresAt, now, client.parseInstant)
    {
      ValidateToken(invitations, nextId, token, now, readFails, client.parseInstant)
    }

    /**
     * `acceptInvitation(token, password)` at `now`. The auth provider's
     * answers are parameters; the profile insert and the accepted-at update
     * may each fail. The steps are not undone when a later one fails.
     */
    method AcceptInvitation(token: string, now: int, readFails: bool, signUp: SignUpReply, signIn: SignInReply)
      returns (r: Result<Id>)
      requires WellFormed(invitations, nextId)
      modifies this, client
      ensures WellFormed(invitations, nextId) && nextId == old(nextId)
      ensures var v := old(Validate(token, now, readFails));
        v.Invalid? ==>
          r == Err(v.error) && invitations == old(invitations) && accounts == old(accounts)
          && profiles == old(profiles) && client.slot == old(client.slot) && client.userProfile == old(client.userProfile)
      ensures var v := old(Validate(token, now, readFails));
        v.Valid? && !signUp.SignedUp? ==>
          r == Err(if signUp.SignUpError? then signUp.message else UserCreationFailedMessage)
          && invitations == old(invitations) && accounts == old(accounts) && profiles == old(profiles)
          && client.slot == old(client.slot) && client.userProfile == old(client.userProfile)
      ensures invitations == old(invitations) ||
        (old(Validate(token, now, readFails)).Valid? && signUp.SignedUp?
         && invitations == Accepted(old(invitations), old(Validate(token, now, readFails)).invitation.id, now))
      ensures client.slot == old(client.slot) || (r.Ok? && signIn.SignedInWith?)
      ensures r.Ok? ==>
        var inv := old(Validate(token, now, readFails)).invitation;
        old(Validate(token, now, readFails)).Valid? && signUp.SignedUp? && signIn.SignedInWith? && r.value == signUp.userId
        && accounts == old(accounts)[r.value := inv.email]
        && profiles == old(profiles)[r.value := UserProfile(r.value, inv.name, None, inv.role)]
        && invitations == Accepted(old(invitations), inv.id, now)
        && client.userProfile == Some(UserProfile(r.value, inv.name, Some(inv.email), inv.role))
        && (signIn.session.Some? ==> AcceptedTokens(signIn.session.value).Some?)
        && (signIn.session.Some? && client.isClient ==> client.GetTokens() == AcceptedTokens(signIn.session.value))
        && (signIn.session.None? ==> client.slot == old(client.slot))
      ensures r.Ok? ==> ValidateToken(invitations, nextId, token, now, false, client.parseInstant) == Invalid(InvalidTokenMessage)
      ensures AtMostOnePending(old(invitations)) ==> AtMostOnePending(invitations)
    {
      var v := Validate(token, now, readFails);
      if v.Invalid? {
        return Err(v.error);
      }
      var inv := v.invitation;
      assert PendingWithToken(invitations, nextId, token) == [inv.id];
      r := AcceptPending(token, inv, now, signUp, signIn);
    }

    /** The steps of `acceptInvitation` after `inv` has been found as the one pending row with `token`. */
    method AcceptPending(token: string, inv: Invitation, now: int, signUp: SignUpReply, signIn: SignInReply)
      returns (r: Result<Id>)
      requires WellFormed(invitations, nextId)
      requires inv.id in invitations && invitations[inv.id] == inv
      requires PendingWithToken(invitations, nextId, token) == [inv.id]
      modifies this, client
      ensures WellFormed(invitations, nextId) && nextId == old(nextId)
      ensures !signUp.SignedUp? ==>
        r == Err(if signUp.SignUpError? then signUp.message else UserCreationFailedMessage)
        && invitations == old(invitations) && accounts == old(accounts) && profiles == old(profiles)
        && client.slot == old(client.slot) && client.userProfile == old(client.userProfile)
      ensures invitations == old(invitations) || (signUp.SignedUp? && invitations == Accepted(old(invitations), inv.id, now))
      ensures client.slot == old(client.slot) || (r.Ok? && signIn.SignedInWith?)
      ensures r.Ok? ==>
        signUp.SignedUp? && signIn.SignedInWith? && r.value == signUp.userId
        && accounts == old(accounts)[r.value := inv.email]
        && profiles == old(profiles)[r.value := UserProfile(r.value, inv.name, None, inv.role)]
        && invitations == Accepted(old(invitations), inv.id, now)
        && client.userProfile == Some(UserProfile(r.value, inv.name, Some(inv.email), inv.role))
        && (signIn.session.Some? ==> AcceptedTokens(signIn.session.value).Some?)
        && (signIn.session.Some? && client.isClient ==> client.GetTokens() == AcceptedTokens(signIn.session.value))
        && (signIn.session.None? ==> client.slot == old(client.slot))
      ensures r.Ok? ==> ValidateToken(invitations, nextId, token, now, false, client.parseInstant) == Invalid(InvalidTokenMessage)
      ensures AtMostOnePending(old(invitations)) ==> AtMostOnePending(invitations)
    {
      r := Register(token, inv, now, signUp);
      if r.Err? {
        return;
      }
      r := StartSession(r.value, inv, signIn);
    }

    /** The account, the profile row and the accepted-at update, in that order. */
    method Register(token: string, inv: Invitation, now: int, signUp: SignUpReply) returns (r: Result<Id>)
      requires WellFormed(invitations, nextId)
      requires inv.id in invitations && invitations[inv.id] == inv
      requires PendingWithToken(invitations, nextId, token) == [inv.id]
      modifies this
      ensures WellFormed(invitations, nextId) && nextId == old(nextId)
      ensures !signUp.SignedUp? ==>
        r == Err(if signUp.SignUpError? then signUp.message else UserCreationFailedMessage)
        && invitations == old(invitations) && accounts == old(accounts) && profiles == old(profiles)
      ensures invitations == old(invitations) || (signUp.SignedUp? && invitations == Accepted(old(invitations), inv.id, now))
      ensures r.Ok? ==>
        signUp.SignedUp? && r.value == signUp.userId
        && accounts == old(accounts)[r.value := inv.email]
        && profiles == old(profiles)[r.value := UserProfile(r.value, inv.name, None, inv.role)]
        && invitations == Accepted(old(invitations), inv.id, now)
        && PendingWithToken(invitations, nextId, token) == []
      ensures AtMostOnePending(old(invitations)) ==> AtMostOnePending(invitations)
    {
      r := CreateAccount(inv, signUp);
      if r.Err? {
        return;
      }
      var uid := r.value;
      var marked := MarkAccepted(inv.id, now);
      if !marked {
        return Err(DatabaseErrorMessage);
      }
      AcceptedOnlyMatch(old(invitations), nextId, token, inv.id, now);
      if AtMostOnePending(old(invitations)) {
        AcceptKeepsAtMostOnePending(old(invitations), inv.id, now);
      }
    }

    /** `signUp` and the profile insert; the account stays when the insert fails. */
    method CreateAccount(inv: Invitation, signUp: SignUpReply) returns (r: Result<Id>)
      modifies this
      ensures invitations == old(invitations) && nextId == old(nextId)
      ensures !signUp.SignedUp? ==>
        r == Err(if signUp.SignUpError? then signUp.message else UserCreationFailedMessage)
        && accounts == old(accounts)
      ensures signUp.SignedUp? ==> accounts == old(accounts)[signUp.userId := inv.email]
      ensures r.Err? ==> profiles == old(profiles)
      ensures r.Ok? ==>
        signUp.SignedUp? && r.value == signUp.userId
        && profiles == old(profiles)[r.value := UserProfile(r.value, inv.name, None, inv.role)]
    {
      if signUp.SignUpError? {
        return Err(signUp.message);
      }
      if signUp.NoUser? {
        return Err(UserCreationFailedMessage);
      }
      var uid := signUp.userId;
      accounts := accounts[uid := inv.email];
      var profileFails: bool := *;
      if profileFails {
        return Err(DatabaseErrorMessage);
      }
      profiles := profiles[uid := UserProfile(uid, inv.name, None, inv.role)];
      r := Ok(uid);
    }

    /** The update of `accepted_at`; false when it fails. */
    method MarkAccepted(id: Id, now: int) returns (marked: bool)
      requires id in invitations && WellFormed(invitations, nextId)
      modifies this
      ensures invitations == if marked then Accepted(old(invitations), id, now) else old(invitations)
      ensures WellFormed(invitations, nextId)
      ensures nextId == old(nextId) && accounts == old(accounts) && profiles == old(profiles)
    {
      var updateFails: bool := *;
      if updateFails {
        return false;
      }
      invitations := Accepted(invitations, id, now);
      marked := true;
    }

    /** Sign-in, the profile state and the saved tokens. */
    method StartSession(uid: Id, inv: Invitation, signIn: SignInReply) returns (r: Result<Id>)
      modifies client
      ensures signIn.SignInError? ==> r == Err(signIn.message) && client.userProfile == old(client.userProfile)
      ensures signIn.SignedInWith? ==> client.userProfile == Some(UserProfile(uid, inv.name, Some(inv.email), inv.role))
      ensures client.slot == old(client.slot) || (r.Ok? && signIn.SignedInWith? && signIn.session.Some?)
      ensures r.Ok? ==>
        signIn.SignedInWith? && r.value == uid
        && (signIn.session.Some? ==> AcceptedTokens(signIn.session.value).Some?)
        && (signIn.session.Some? && client.isClient ==> client.GetTokens() == AcceptedTokens(signIn.session.value))
        && (signIn.session.None? ==> client.slot == old(client.slot))
      ensures r.Err? ==> r.error == InvalidTimeValueMessage || signIn.SignInError?
    {
      if signIn.SignInError? {
        return Err(signIn.message);
      }
      client.userProfile := Some(UserProfile(uid, inv.name, Some(inv.email), inv.role));
      if signIn.session.Some? {
        var saved := AcceptedTokens(signIn.session.value);
        if saved.None? {
          return Err(InvalidTimeValueMessage);
        }
        client.SaveTokens(saved.value);
      }
      r := Ok(uid);
    }

    /** `resendInvitation(id)` at `now`: a new expiry seven days out. */
    method ResendInvitation(id: Id, now: int) returns (r: Result<()>)
      requires WellFormed(invitations, nextId)
      modifies this
      ensures WellFormed(invitations, nextId) && nextId == old(nextId)
      ensures accounts == old(accounts) && profiles == old(profiles)
      ensures invitations == if r.Ok? then Resent(old(invitations), id, now) else old(invitations)
      ensures r.Ok? && AtMostOnePending(old(invitations)) ==> AtMostOnePending(invitations)
    {
      var updateFails: bool := *;
      if updateFails {
        return Err(DatabaseErrorMessage);
      }
      ResendKeepsPending(invitations, id, now);
      invitations := Resent(invitations, id, now);
      r := Ok(());
    }

    /** `revokeInvitation(id)`: the row is deleted. */
    method RevokeInvitation(id: Id) returns (r: Result<()>)
      requires WellFormed(invitations, nextId)
      modifies this
      ensures WellFormed(invitations, nextId) && nextId == old(nextId)
      ensures accounts == old(accounts) && profiles == old(profiles)
      ensures invitations == if r.Ok? then old(invitations) - {id} else old(invitations)
      ensures r.Ok? ==> id !in invitations
      ensures r.Ok? && AtMostOnePending(old(invitations)) ==> AtMostOnePending(invitations)
    {
      var deleteFails: bool := *;
      if deleteFails {
        return Err(DatabaseErrorMessage);
      }
      invitations := invitations - {id};
      r := Ok(());
    }

    /** `getPendingInvitations()`; `readFails` is whether the query errs. */
    function GetPendingInvitations(readFails: bool): (r: Result<seq<Invitation>>)
      reads this
      ensures r.Err? <==> readFails
      ensures r.Err? ==> r.error == DatabaseErrorMessage
      ensures r.Ok? ==> SortedDescBy(r.value, CreatedAtOf)
      ensures r.Ok? ==> forall x :: x in r.value ==> x in invitations.Values && Pending(x)
      ensures r.Ok? ==> forall id :: id in invitations && id < nextId && Pending(invitations[id]) ==> invitations[id] in r.value
    {
      if readFails then Err(DatabaseErrorMessage) else Ok(PendingInvitations(Rows()))
    }
  }

  /** The rows of the table with ids below `n`, ascending. */
  function RowsOf(table: map<Id, Invitation>, n: nat): (rows: seq<Invitation>)
    ensures forall id :: id in table && id < n ==> table[id] in rows
    ensures forall x :: x in rows ==> x in table.Values
  {
    if n == 0 then []
    else
      var rows := RowsOf(table, n - 1);
      if n - 1 in table then rows + [table[n - 1]] else rows
  }

  // ---------------------------------------------------------------------------
  // Lifecycle properties
  // ---------------------------------------------------------------------------

  /**
   * Two tables that agree except at `id`, where the second has no pending row
   * with `token`: the second has one match fewer exactly when the first
   * matched at `id`.
   */
  lemma {:induction false} DropMatch(table: map<Id, Invitation>, table2: map<Id, Invitation>, n: nat, token: string, id: Id)
    requires forall k :: k != id ==> (k in table <==> k in table2)
    requires forall k :: k != id && k in table ==> table2[k] == table[k]
    requires !(id in table2 && Pending(table2[id]) && table2[id].inviteToken == token)
    ensures |PendingWithToken(table2, n, token)| ==
      |PendingWithToken(table, n, token)| - (if id < n && id in table && Pending(table[id]) && table[id].inviteToken == token then 1 else 0)
  {
    if n > 0 {
      DropMatch(table, table2, n - 1, token, id);
    }
  }

  /**
   * Accepting the one pending row for a token leaves no pending row with it,
   * so the token no longer validates.
   */
  lemma AcceptedOnlyMatch(table: map<Id, Invitation>, n: nat, token: string, id: Id, now: int)
    requires id in table && PendingWithToken(table, n, token) == [id]
    ensures PendingWithToken(Accepted(table, id, now), n, token) == []
  {
    DropMatch(table, Accepted(table, id, now), n, token, id);
  }

  /** Changing expiries leaves every row's pending state and address as it was. */
  lemma ResendKeepsPending(table: map<Id, Invitation>, id: Id, now: int)
    ensures forall k :: k in table ==>
      Pending(Resent(table, id, now)[k]) == Pending(table[k]) && Resent(table, id, now)[k].email == table[k].email
  {
  }

  /** A resend changes no row's token or pending state, so the same rows match every token. */
  lemma {:induction false} ResendKeepsMatches(table: map<Id, Invitation>, n: nat, token: string, id: Id, now: int)
    ensures PendingWithToken(Resent(table, id, now), n, token) == PendingWithToken(table, n, token)
  {
    if n > 0 {
      ResendKeepsMatches(table, n - 1, token, id, now);
    }
  }

  /** A fresh expiry is honoured: the only pending row for a token validates until seven days after `now`. */
  lemma ResendRenews(table: map<Id, Invitation>, n: nat, token: string, id: Id, now: int, later: int, parse: string -> Option<int>)
    requires id in table && PendingWithToken(table, n, token) == [id]
    requires later <= now + ResendDays * DayMs
    ensures ValidateToken(Resent(table, id, now), n, token, later, false, parse) == Valid(Resent(table, id, now)[id])
  {
    ResendKeepsMatches(table, n, token, id, now);
  }

  /** After a revoke the invitation's token no longer validates, if it was its only row. */
  lemma RevokedTokenInvalid(table: map<Id, Invitation>, n: nat, token: string, id: Id, now: int, parse: string -> Option<int>)
    requires PendingWithToken(table, n, token) == [id]
    ensures ValidateToken(table - {id}, n, token, now, false, parse) == Invalid(InvalidTokenMessage)
  {
    DropMatch(table, table - {id}, n, token, id);
  }

  /** The expiry instant itself is still valid; one millisecond later is expired. */
  lemma ExpiryBoundary(ms: int, parse: string -> Option<int>)
    ensures !Expired(IsoOf(ms), ms, parse)
    ensures Expired(IsoOf(ms), ms + 1, parse)
  {
  }

  /** A stored expiry the parser rejects never expires. */
  lemma UnparseableNeverExpires(s: string, now: int, parse: string -> Option<int>)
    requires parse(s).None?
    ensures !Expired(Text(s), now, parse)
  {
  }

  /** The saved refresh expiry is exactly one day past the access expiry. */
  lemma AcceptedTokensLifetimes(s: Session, now: int, parse: string -> Option<int>)
    requires AcceptedTokens(s).Some?
    ensures AcceptedTokens(s).value.refreshExpiresAt.ms == AcceptedTokens(s).value.accessExpiresAt.ms + DayMs
    ensures IsAuthenticated(AcceptedTokens(s), now, parse) <==> now < (s.expiresAt.value + RefreshGraceSeconds) * 1000
    ensures IsAccessTokenExpired(AcceptedTokens(s), now, parse) <==> now >= s.expiresAt.value * 1000 - AccessSkewMs
  {
  }

  /** Marking a row accepted never adds a pending row, so no address gains a second one. */
  lemma AcceptKeepsAtMostOnePending(table: map<Id, Invitation>, id: Id, now: int)
    requires id in table && AtMostOnePending(table)
    ensures AtMostOnePending(Accepted(table, id, now))
  {
  }
}
