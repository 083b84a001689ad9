/**
 * app/plugins/auth.client.ts: on a page load in the browser, restores the
 * user profile from the auth provider's session and the `user_profiles`
 * table. The two remote answers are parameters.
 */
module ProfileRestore {
  import opened Wrappers
  import opened Strings
  import opened Auth

  const DefaultName: string := "User"
  const DefaultRole: string := "staff"

  /** The session's user: its id and (possibly missing) email. */
  datatype SessionUser = SessionUser(id: Id, email: Option<string>)

  /** `getSession()`: it throws, or yields a session that may lack a user. */
  datatype SessionAnswer = SessionThrew | SessionAnswered(user: Option<SessionUser>)

  /** The profile-row query: it throws, reports an error (no row included), or yields the row ("" for a null field). */
  datatype ProfileAnswer = ProfileThrew | ProfileFailed | ProfileRow(name: string, role: string)

  /** `profile.name || email?.split("@")[0] || "User"` */
  function DisplayName(profileName: string, email: Option<string>): (r: string)
    ensures r != ""
    ensures profileName != "" ==> r == profileName
    ensures profileName == "" && email.Some? && BeforeFirst(email.value, '@') != "" ==>
      r == BeforeFirst(email.value, '@') && '@' !in r
    ensures profileName == "" && (email.None? || BeforeFirst(email.value, '@') == "") ==> r == DefaultName
  {
    if profileName != "" then profileName
    else if email.Some? && BeforeFirst(email.value, '@') != "" then BeforeFirst(email.value, '@')
    else DefaultName
  }

  /** `profile.role || "staff"` */
  function RoleOf(role: string): (r: string)
    ensures r != ""
    ensures role != "" ==> r == role
  {
    if role == "" then DefaultRole else role
  }

  /** What the restore step decides: whether the slot is cleared, and the profile it sets. */
  datatype Restored = Restored(clear: bool, profile: Option<UserProfile>)

  /** The `try` block with its `catch`: any exception or profile error clears the slot. */
  function RestoreOutcome(session: SessionAnswer, answer: ProfileAnswer): (r: Restored)
    ensures r.clear ==> r.profile.None?
    ensures r.profile.Some? ==>
      session.SessionAnswered? && session.user.Some? && answer.ProfileRow?
      && r.profile.value.id == session.user.value.id && r.profile.value.email == session.user.value.email
      && r.profile.value.name != "" && r.profile.value.role != ""
    ensures session == SessionAnswered(None) ==> r == Restored(false, None)
  {
    match session
    case SessionThrew => Restored(true, None)
    case SessionAnswered(None) => Restored(false, None)
    case SessionAnswered(Some(user)) =>
      match answer
      case ProfileThrew => Restored(true, None)
      case ProfileFailed => Restored(true, None)
      case ProfileRow(name, role) =>
        Restored(false, Some(UserProfile(user.id, DisplayName(name, user.email), user.email, RoleOf(role))))
  }

  /**
   * The plugin run at clock reading `now`. `session` and `answer` are what the
   * two remote calls would give; they are consulted only when the restore
   * block runs.
   */
  method RestoreProfile(store: ClientState, now: int, session: SessionAnswer, answer: ProfileAnswer)
    modifies store
    ensures !store.isClient ==>
      store.slot == old(store.slot) && store.userProfile == old(store.userProfile)
      && store.isLoadingProfile == old(store.isLoadingProfile)
    ensures store.isClient ==>
      var authenticated := IsAuthenticated(old(store.GetTokens()), now, store.parseInstant);
      var runs := authenticated && old(store.userProfile).None?;
      var outcome := RestoreOutcome(session, answer);
      store.isLoadingProfile
        == (if runs then Some(false) else if old(store.isLoadingProfile).None? then Some(authenticated) else old(store.isLoadingProfile))
      && store.slot == (if runs && outcome.clear then None else old(store.slot))
      && store.userProfile == (if runs then outcome.profile else old(store.userProfile))
  {
    if !store.isClient {
      return;
    }
    var authenticated := IsAuthenticated(store.GetTokens(), now, store.parseInstant);
    if store.isLoadingProfile.None? {
      store.isLoadingProfile := Some(authenticated);
    }
    if authenticated && store.userProfile.None? {
      var outcome := RestoreOutcome(session, answer);
      if outcome.clear {
        store.ClearTokens();
      } else if outcome.profile.Some? {
        store.userProfile := outcome.profile;
      }
      store.isLoadingProfile := Some(false);
    }
  }

  lemma LocalPartExample()
    ensures BeforeFirst("somchai@example.com", '@') == "somchai"
  {
    var e := "somchai@example.com";
    assert e[..7] == "somchai";
    assert '@' !in e[..7];
    IndexOfIsFirst(e, '@', 7);
  }

  /** Without a profile name, the email's local part is used. */
  lemma NameFromEmailExample()
    ensures DisplayName("", Some("somchai@example.com")) == "somchai"
  {
    LocalPartExample();
  }

  /** An empty local part, or no email at all, gives "User". */
  lemma DefaultNameExamples()
    ensures DisplayName("", Some("@example.com")) == DefaultName
    ensures DisplayName("", None) == DefaultName
  {
    IndexOfIsFirst("@example.com", '@', 0);
  }

  /** Stored profile fields win over the fallbacks; a missing role is "staff". */
  lemma ProfileFieldsWin()
    ensures DisplayName("Somchai K.", Some("somchai@example.com")) == "Somchai K."
    ensures RoleOf("") == DefaultRole && RoleOf("admin") == "admin"
  {
  }

  /** The restore step is fail-closed: it clears exactly on an exception or a profile error. */
  lemma RestoreFailClosed(session: SessionAnswer, answer: ProfileAnswer)
    ensures var r := RestoreOutcome(session, answer);
      r.clear <==> session.SessionThrew? || (session.SessionAnswered? && session.user.Some? && !answer.ProfileRow?)
    ensures var r := RestoreOutcome(session, answer);
      r.profile.Some? <==> session.SessionAnswered? && session.user.Some? && answer.ProfileRow?
  {
  }
}
