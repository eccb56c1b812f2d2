/** The session and membership state of the authentication context
    (contexts/AuthContext.tsx): the signed-in user, the company the user works in,
    the membership resolver `ensureCompany` with its bounded retry, the manual
    override guard set by `setAuthenticatedCompany`, and the permission check.

    Timers are explicit events: a scheduled retry of `ensureCompany` is an entry of
    `pendingRetries` (its retry count), and a scheduled reset of the guard is a unit of
    `pendingGuardResets`. Every timer of a kind has the same delay, so timers of one kind
    fire in the order they were set. Each membership lookup is an oracle that returns a
    membership, returns none, or throws. */
module Auth {
  import opened Wrappers
  import opened Types
  import opened Strings
  import Database

  /** `['FINANCE', 'INVENTORY', 'PRODUCTS', 'ORDERS', 'POS', 'SETTINGS', 'REPORTS', 'CLIENTS', 'TEAM']`. */
  const AdminPermissions: seq<Permission> := [FINANCE, INVENTORY, PRODUCTS, ORDERS, POS, SETTINGS, REPORTS, CLIENTS, TEAM]

  /** The full permission list names every permission. */
  lemma AdminPermissionsComplete(p: Permission)
    ensures p in AdminPermissions
  {
    match p
    case FINANCE => assert AdminPermissions[0] == p;
    case INVENTORY => assert AdminPermissions[1] == p;
    case PRODUCTS => assert AdminPermissions[2] == p;
    case ORDERS => assert AdminPermissions[3] == p;
    case POS => assert AdminPermissions[4] == p;
    case SETTINGS => assert AdminPermissions[5] == p;
    case REPORTS => assert AdminPermissions[6] == p;
    case CLIENTS => assert AdminPermissions[7] == p;
    case TEAM => assert AdminPermissions[8] == p;
  }

  /** The user the backend's auth service reports, with the metadata fields the context
      reads (`None` for an absent field). */
  datatype AuthUser = AuthUser(
    id: string,
    email: Option<string>,
    metaName: Option<string>,
    metaRole: Option<UserRole>,
    metaPermissions: Option<seq<Permission>>)

  /** An active membership row with the joined company's name. */
  datatype Membership = Membership(companyId: string, role: string, companyName: Option<string>)

  type Lookup = Outcome<Option<Membership>>

  /** The events the auth service delivers to `onAuthStateChange`. */
  datatype AuthEvent = SIGNED_IN | SIGNED_OUT | USER_UPDATED | TOKEN_REFRESHED | INITIAL_SESSION | PASSWORD_RECOVERY

  /** `updateUserState`: the metadata name when it is non-empty, else the part of the
      e-mail before '@'; the metadata role, else ADMIN; the metadata permission list
      (even an empty one), else every permission. */
  function UserFromAuth(u: AuthUser): (r: User)
    ensures r.id == u.id && r.active
    ensures r.email == u.email.GetOr("")
    ensures u.metaName.Some? && u.metaName.value != "" ==> r.name == u.metaName.value
    ensures (u.metaName.None? || u.metaName.value == "") && u.email.Some? ==> r.name == LocalPart(u.email.value)
    ensures r.role == u.metaRole.GetOr(ADMIN)
    ensures u.metaPermissions.Some? ==> r.permissions == u.metaPermissions.value
    ensures u.metaPermissions.None? ==> forall p :: p in r.permissions
  {
    var name := match u.metaName
      case Some(n) => if n != "" then n else LocalPart(u.email.GetOr(""))
      case None => LocalPart(u.email.GetOr(""));
    forall p ensures u.metaPermissions.None? ==> p in u.metaPermissions.GetOr(AdminPermissions) {
      AdminPermissionsComplete(p);
    }
    User(u.id, name, u.email.GetOr(""), u.metaRole.GetOr(ADMIN), true, u.metaPermissions.GetOr(AdminPermissions))
  }

  /** `hasPermission`: nobody signed in holds nothing; an OWNER or ADMIN membership
      holds everything; anyone else holds exactly the permissions listed on the user. */
  function HasPermission(user: Option<User>, membershipRole: Option<string>, p: Permission): (b: bool)
    ensures user.None? ==> !b
    ensures user.Some? && (membershipRole == Some("OWNER") || membershipRole == Some("ADMIN")) ==> b
    ensures user.Some? && membershipRole != Some("OWNER") && membershipRole != Some("ADMIN") ==>
      (b <==> p in user.value.permissions)
  {
    match user
    case None => false
    case Some(u) => membershipRole == Some("OWNER") || membershipRole == Some("ADMIN") || p in u.permissions
  }

  /** A user whose metadata carries no permission list holds every permission,
      whatever the membership. */
  lemma DefaultUserHoldsEverything(u: AuthUser, role: Option<string>, p: Permission)
    requires u.metaPermissions.None?
    ensures HasPermission(Some(UserFromAuth(u)), role, p)
  {
  }

  /** What the auth service answers to a sign-up: whether the response carries a user,
      and whether it carries a session. */
  datatype SignUpResponse = SignUpResponse(hasUser: bool, hasSession: bool)

  /** `signUp`: the service's error is thrown with its message; otherwise the answer is
      whether the account still awaits e-mail confirmation. */
  function SignUp(answer: Outcome<SignUpResponse>): (r: Outcome<bool>)
    ensures r.Threw? <==> answer.Threw?
    ensures answer.Threw? ==> r.message == answer.message
    ensures answer.Returned? ==> (r.value <==> answer.value.hasUser && !answer.value.hasSession)
  {
    match answer
    case Threw(message) => Threw(message)
    case Returned(data) => Returned(data.hasUser && !data.hasSession)
  }

  /** The company name a membership shows: the joined name, or 'Minha Empresa'. */
  function CompanyDisplayName(name: Option<string>): (r: string)
    ensures r != ""
    ensures name.Some? && name.value != "" ==> r == name.value
  {
    match name
    case Some(n) => if n != "" then n else "Minha Empresa"
    case None => "Minha Empresa"
  }

  // ---------------------------------------------------------------------------
  // The context's state and one step per event

  /** The context's state; `lookups` counts the membership lookups made so far. */
  datatype AuthState = AuthState(
    user: Option<User>,
    companyId: Option<string>,
    companyName: Option<string>,
    membershipRole: Option<string>,
    loading: bool,
    loadingCompany: bool,
    guard: bool,
    pendingRetries: seq<nat>,
    pendingGuardResets: nat,
    lookups: nat)

  const Initial := AuthState(None, None, None, None, true, false, false, [], 0, 0)

  /** True when the company fields agree. */
  predicate SameCompany(s: AuthState, t: AuthState)
  {
    s.companyId == t.companyId && s.companyName == t.companyName && s.membershipRole == t.membershipRole
  }

  /** `ensureCompany(retryCount)`. A first attempt (count 0) while the guard is set does
      nothing; any other call looks the membership up once. A found membership sets the
      company fields, ends loading and clears the guard; none found schedules the next
      attempt while the count is below 3, and ends loading otherwise; a thrown lookup
      ends loading and schedules nothing. */
  function EnsureCompanyStep(s: AuthState, retryCount: nat, lookup: Lookup): (t: AuthState)
    ensures s.guard && retryCount == 0 ==> t == s
    ensures !(s.guard && retryCount == 0) ==>
      t.lookups == s.lookups + 1 && t.user == s.user && t.loading == s.loading
      && t.pendingGuardResets == s.pendingGuardResets
    ensures !(s.guard && retryCount == 0) && lookup.Returned? && lookup.value.Some? ==>
      var m := lookup.value.value;
      t.companyId == Some(m.companyId) && t.membershipRole == Some(m.role)
      && t.companyName == Some(CompanyDisplayName(m.companyName))
      && !t.loadingCompany && !t.guard && t.pendingRetries == s.pendingRetries
    ensures !(s.guard && retryCount == 0) && lookup == Returned(None) && retryCount < 3 ==>
      SameCompany(s, t) && t.loadingCompany && t.guard == s.guard
      && t.pendingRetries == s.pendingRetries + [retryCount + 1]
    ensures !(s.guard && retryCount == 0) && lookup == Returned(None) && retryCount >= 3 ==>
      SameCompany(s, t) && !t.loadingCompany && t.guard == s.guard && t.pendingRetries == s.pendingRetries
    ensures !(s.guard && retryCount == 0) && lookup.Threw? ==>
      SameCompany(s, t) && !t.loadingCompany && t.guard == s.guard && t.pendingRetries == s.pendingRetries
  {
    if s.guard && retryCount == 0 then s
    else
      var s1 := s.(loadingCompany := true, lookups := s.lookups + 1);
      match lookup
      case Threw(_) => s1.(loadingCompany := false)
      case Returned(Some(m)) =>
        s1.(companyId := Some(m.companyId), membershipRole := Some(m.role),
            companyName := Some(CompanyDisplayName(m.companyName)), loadingCompany := false, guard := false)
      case Returned(None) =>
        if retryCount < 3 then s1.(pendingRetries := s1.pendingRetries + [retryCount + 1])
        else s1.(loadingCompany := false)
  }

  /** The oldest scheduled retry fires and runs `ensureCompany` with its count. */
  function RetryFiresStep(s: AuthState, lookup: Lookup): AuthState
    requires s.pendingRetries != []
  {
    EnsureCompanyStep(s.(pendingRetries := s.pendingRetries[1..]), s.pendingRetries[0], lookup)
  }

  /** `setAuthenticatedCompany`: set the guard and the company fields, end loading and
      schedule the guard's reset. */
  function SetAuthenticatedCompanyStep(s: AuthState, id: string, name: string, role: string): (t: AuthState)
    ensures t.guard && !t.loadingCompany
    ensures t.companyId == Some(id) && t.companyName == Some(name) && t.membershipRole == Some(role)
    ensures t.pendingGuardResets == s.pendingGuardResets + 1
    ensures t.user == s.user && t.pendingRetries == s.pendingRetries && t.lookups == s.lookups
  {
    s.(guard := true, companyId := Some(id), companyName := Some(name), membershipRole := Some(role),
       loadingCompany := false, pendingGuardResets := s.pendingGuardResets + 1)
  }

  /** A guard-reset timer fires. */
  function GuardResetStep(s: AuthState): (t: AuthState)
    requires s.pendingGuardResets > 0
    ensures !t.guard && t.pendingGuardResets == s.pendingGuardResets - 1
    ensures SameCompany(s, t) && t.user == s.user && t.pendingRetries == s.pendingRetries
  {
    s.(guard := false, pendingGuardResets := s.pendingGuardResets - 1)
  }

  /** The `onAuthStateChange` handler. With a session user, refresh the user and, on
      SIGNED_IN or USER_UPDATED, run a first membership attempt; with none, SIGNED_OUT
      clears the user, the company fields and the guard, and any other event is ignored. */
  function AuthChangeStep(s: AuthState, event: AuthEvent, sessionUser: Option<AuthUser>, lookup: Lookup): (t: AuthState)
    ensures sessionUser.Some? && (event == SIGNED_IN || event == USER_UPDATED) ==>
      t == EnsureCompanyStep(s.(user := Some(UserFromAuth(sessionUser.value))), 0, lookup)
    ensures sessionUser.Some? && event != SIGNED_IN && event != USER_UPDATED ==>
      t == s.(user := Some(UserFromAuth(sessionUser.value)))
    ensures sessionUser.None? && event == SIGNED_OUT ==>
      t.user.None? && t.companyId.None? && t.companyName.None? && t.membershipRole.None? && !t.guard
      && t.loadingCompany == s.loadingCompany && t.pendingRetries == s.pendingRetries
    ensures sessionUser.None? && event != SIGNED_OUT ==> t == s
  {
    match sessionUser
    case Some(u) =>
      var s1 := s.(user := Some(UserFromAuth(u)));
      if event == SIGNED_IN || event == USER_UPDATED then EnsureCompanyStep(s1, 0, lookup) else s1
    case None =>
      if event == SIGNED_OUT then
        s.(user := None, companyId := None, companyName := None, membershipRole := None, guard := false)
      else s
  }

  /** `initAuth`: with a session user, set the user and run a first membership attempt;
      a failed session read changes nothing; either way the initial loading ends. */
  function InitAuthStep(s: AuthState, session: Outcome<Option<AuthUser>>, lookup: Lookup): (t: AuthState)
    ensures !t.loading
    ensures session.Returned? && session.value.Some? ==>
      t == EnsureCompanyStep(s.(user := Some(UserFromAuth(session.value.value))), 0, lookup).(loading := false)
    ensures !(session.Returned? && session.value.Some?) ==> t == s.(loading := false)
  {
    match session
    case Returned(Some(u)) => EnsureCompanyStep(s.(user := Some(UserFromAuth(u))), 0, lookup).(loading := false)
    case _ => s.(loading := false)
  }

  /** `logout`: clear the user and the company fields. Neither the guard nor the loading
      flag nor the timers already scheduled are touched. */
  function LogoutStep(s: AuthState): (t: AuthState)
    ensures t.user.None? && t.companyId.None? && t.companyName.None? && t.membershipRole.None?
    ensures t.guard == s.guard && t.loadingCompany == s.loadingCompany && t.pendingRetries == s.pendingRetries
  {
    s.(user := None, companyId := None, companyName := None, membershipRole := None)
  }

  // ---------------------------------------------------------------------------
  // Properties of the resolver

  /** The retries that fire one after another, each answered by the next lookup result,
      until no retry is pending or the results run out. */
  function RunRetries(s: AuthState, results: seq<Lookup>): AuthState
    decreases |results|
  {
    if s.pendingRetries == [] || results == [] then s
    else RunRetries(RetryFiresStep(s, results[0]), results[1..])
  }

  /** From a single pending retry with count k, the chain makes at most 4 - k further
      lookups, and after that many results it has ended with loading off. */
  lemma {:induction false} ChainFromRetry(s: AuthState, k: nat, results: seq<Lookup>)
    requires s.pendingRetries == [k] && 1 <= k <= 3 && s.loadingCompany
    ensures RunRetries(s, results).lookups <= s.lookups + (4 - k)
    ensures |results| >= 4 - k ==>
      RunRetries(s, results).pendingRetries == [] && !RunRetries(s, results).loadingCompany
    decreases |results|
  {
    if results != [] {
      var t := RetryFiresStep(s, results[0]);
      assert s.pendingRetries[1..] == [];
      if results[0] == Returned(None) && k < 3 {
        assert t.pendingRetries == [k + 1];
        ChainFromRetry(t, k + 1, results[1..]);
      } else {
        assert t.pendingRetries == [];
        assert RunRetries(t, results[1..]) == t;
      }
    }
  }

  /** A membership resolution — one first attempt and the retries it schedules — makes
      at most four lookups; with four results available it always ends, and ends with
      loading off unless the guard suppressed it. */
  lemma ResolutionBounded(s: AuthState, first: Lookup, results: seq<Lookup>)
    requires s.pendingRetries == []
    ensures RunRetries(EnsureCompanyStep(s, 0, first), results).lookups <= s.lookups + 4
    ensures |results| >= 3 ==> RunRetries(EnsureCompanyStep(s, 0, first), results).pendingRetries == []
    ensures |results| >= 3 && !s.guard ==> !RunRetries(EnsureCompanyStep(s, 0, first), results).loadingCompany
  {
    var t := EnsureCompanyStep(s, 0, first);
    if !s.guard && first == Returned(None) {
      ChainFromRetry(t, 1, results);
    } else {
      assert t.pendingRetries == [];
    }
  }

  /** Three empty lookups and a fourth that finds the membership resolve the company
      after exactly four lookups. */
  lemma FoundOnLastRetry(s: AuthState, m: Membership)
    requires s.pendingRetries == [] && !s.guard
    ensures var u := RunRetries(EnsureCompanyStep(s, 0, Returned(None)),
                                [Returned(None), Returned(None), Returned(Some(m))]);
      u.companyId == Some(m.companyId) && u.membershipRole == Some(m.role)
      && !u.loadingCompany && u.lookups == s.lookups + 4 && u.pendingRetries == []
  {
    var t0 := EnsureCompanyStep(s, 0, Returned(None));
    var t1 := RetryFiresStep(t0, Returned(None));
    var t2 := RetryFiresStep(t1, Returned(None));
    var t3 := RetryFiresStep(t2, Returned(Some(m)));
    var rs: seq<Lookup> := [Returned(None), Returned(None), Returned(Some(m))];
    assert t0.pendingRetries == [1];
    assert RunRetries(t0, rs) == RunRetries(t1, rs[1..]);
    assert t1.pendingRetries == [2];
    assert RunRetries(t1, rs[1..]) == RunRetries(t2, rs[2..]);
    assert t2.pendingRetries == [3];
    assert RunRetries(t2, rs[2..]) == RunRetries(t3, []);
    assert t3.lookups == s.lookups + 4;
  }

  /** The guard does its job: right after `setAuthenticatedCompany`, a SIGNED_IN event
      (whatever its lookup would say) leaves the company that was just set in place; once
      the guard's timer has fired, a SIGNED_IN event that finds a membership replaces it. */
  lemma GuardProtectsManualCompany(s: AuthState, id: string, name: string, role: string,
                                   u: AuthUser, lookup: Lookup, m: Membership)
    ensures var t := AuthChangeStep(SetAuthenticatedCompanyStep(s, id, name, role), SIGNED_IN, Some(u), lookup);
      t.companyId == Some(id) && t.companyName == Some(name) && t.membershipRole == Some(role)
    ensures var r := GuardResetStep(SetAuthenticatedCompanyStep(s, id, name, role));
      AuthChangeStep(r, SIGNED_IN, Some(u), Returned(Some(m))).companyId == Some(m.companyId)
  {
  }

  /** Two manual sets within the guard's lifetime share one flag: the first set's timer
      clears the guard while the second set's timer is still pending. */
  lemma FirstTimerClearsSecondGuard(s: AuthState, id1: string, id2: string, name: string, role: string)
    requires s.pendingGuardResets == 0
    ensures var t := GuardResetStep(SetAuthenticatedCompanyStep(SetAuthenticatedCompanyStep(s, id1, name, role), id2, name, role));
      !t.guard && t.pendingGuardResets == 1 && t.companyId == Some(id2)
  {
  }

  // ---------------------------------------------------------------------------
  // The provider's state, updated in place

  class AuthSession {
    var user: Option<User>
    var companyId: Option<string>
    var companyName: Option<string>
    var membershipRole: Option<string>
    var loading: bool
    var loadingCompany: bool
    /** `justSetCompanyManual.current` */
    var guard: bool
    var pendingRetries: seq<nat>
    var pendingGuardResets: nat
    var lookups: nat

    function State(): AuthState
      reads this
    {
      AuthState(user, companyId, companyName, membershipRole, loading, loadingCompany, guard,
                pendingRetries, pendingGuardResets, lookups)
    }

    constructor ()
      ensures State() == Initial
    {
      user, companyId, companyName, membershipRole := None, None, None, None;
      loading, loadingCompany, guard := true, false, false;
      pendingRetries, pendingGuardResets, lookups := [], 0, 0;
    }

    /** `isAuthenticated` */
    function IsAuthenticated(): bool
      reads this
    {
      user.Some?
    }

    method EnsureCompany(retryCount: nat, lookup: Lookup)
      modifies this
      ensures State() == EnsureCompanyStep(old(State()), retryCount, lookup)
    {
      if guard && retryCount == 0 {
        return;
      }
      loadingCompany := true;
      lookups := lookups + 1;
      match lookup
      case Returned(Some(m)) =>
        companyId := Some(m.companyId);
        membershipRole := Some(m.role);
        companyName := Some(CompanyDisplayName(m.companyName));
        loadingCompany := false;
        guard := false;
      case Returned(None) =>
        if retryCount < 3 {
          pendingRetries := pendingRetries + [retryCount + 1];
        } else {
          loadingCompany := false;
        }
      case Threw(_) =>
        loadingCompany := false;
    }

    /** The oldest pending retry timer fires. */
    method FireRetry(lookup: Lookup)
      requires pendingRetries != []
      modifies this
      ensures State() == RetryFiresStep(old(State()), lookup)
    {
      var retryCount := pendingRetries[0];
      pendingRetries := pendingRetries[1..];
      EnsureCompany(retryCount, lookup);
    }

    /** `refreshMembership` */
    method RefreshMembership(lookup: Lookup)
      modifies this
      ensures State() == EnsureCompanyStep(old(State()), 0, lookup)
    {
      EnsureCompany(0, lookup);
    }

    method SetAuthenticatedCompany(id: string, name: string, role: string)
      modifies this
      ensures State() == SetAuthenticatedCompanyStep(old(State()), id, name, role)
    {
      guard := true;
      companyId := Some(id);
      companyName := Some(name);
      membershipRole := Some(role);
      loadingCompany := false;
      pendingGuardResets := pendingGuardResets + 1;
    }

    /** The oldest pending guard-reset timer fires. */
    method FireGuardReset()
      requires pendingGuardResets > 0
      modifies this
      ensures State() == GuardResetStep(old(State()))
    {
      guard := false;
      pendingGuardResets := pendingGuardResets - 1;
    }

    method HandleAuthChange(event: AuthEvent, sessionUser: Option<AuthUser>, lookup: Lookup)
      modifies this
      ensures State() == AuthChangeStep(old(State()), event, sessionUser, lookup)
    {
      match sessionUser
      case Some(u) =>
        user := Some(UserFromAuth(u));
        if event == SIGNED_IN || event == USER_UPDATED {
          EnsureCompany(0, lookup);
        }
      case None =>
        if event == SIGNED_OUT {
          user := None;
          companyId := None;
          companyName := None;
          membershipRole := None;
          guard := false;
        }
    }

    method InitAuth(session: Outcome<Option<AuthUser>>, lookup: Lookup)
      modifies this
      ensures State() == InitAuthStep(old(State()), session, lookup)
    {
      match session {
        case Returned(Some(u)) =>
          user := Some(UserFromAuth(u));
          EnsureCompany(0, lookup);
        case _ =>
      }
      loading := false;
    }

    /** `logout`: sign out, clear the user and company fields, and clear the browser
        store (the cache and the write queue). */
    method Logout(data: Database.DataLayer)
      modifies this, data
      ensures State() == LogoutStep(old(State()))
      ensures data.Valid() && data.store == map[] && data.queue == []
    {
      user := None;
      companyId := None;
      companyName := None;
      membershipRole := None;
      data.Clear();
    }

    /** `hasPermission` on the current state. */
    function Can(p: Permission): bool
      reads this
    {
      HasPermission(user, membershipRole, p)
    }
  }
}
