/** The authentication context (src/contexts/AuthContext.tsx): the snapshot
    `(session, user, userRole)` a provider exposes, the handlers that change it —
    the one-shot initial session check, the auth-change listener and the role
    lookup — and the provider driven by an ordered stream of such events.
    The model keeps the provider's gaps: a role lookup result is applied without
    checking which user it was for, and `signOut` leaves the snapshot alone. */
module AuthContext {
  import opened Options

  datatype AppRole = ClientRole | RestaurantRole | DriverRole | AdminRole

  datatype User = User(id: string)

  /** A backend session; it always carries its user. */
  datatype Session = Session(accessToken: string, user: User)

  datatype Snapshot = Snapshot(session: Option<Session>, user: Option<User>, userRole: Option<AppRole>)

  const AllNull := Snapshot(None, None, None)

  /** The user of a possibly absent session (`session?.user ?? null`). */
  function UserOf(session: Option<Session>): (u: Option<User>)
    ensures u.Some? <==> session.Some?
    ensures u.Some? ==> u.value == session.value.user
  {
    if session.Some? then Some(session.value.user) else None
  }

  /** The relation between `user` and `session` that every handler re-establishes. */
  predicate UserTracksSession(s: Snapshot)
  {
    s.user == UserOf(s.session)
  }

  /** A call the provider makes to the backend. */
  datatype BackendCall = GetSession | Subscribe | FetchRole(userId: string) | SignOutRequest | Unsubscribe

  /** What the role query answered: the profile's role, or an error (no row, or a failure). */
  datatype RoleResponse = RoleRow(role: AppRole) | RoleError(message: string)

  /** A handler's new snapshot and the backend calls it started. */
  datatype Reaction = Reaction(snapshot: Snapshot, issued: seq<BackendCall>)

  /** The result of the one-shot initial session check. */
  function OnSessionChecked(s: Snapshot, session: Option<Session>): (r: Reaction)
    ensures r.snapshot.session == session && UserTracksSession(r.snapshot)
    ensures r.snapshot.userRole == s.userRole
    ensures |r.issued| == (if session.Some? then 1 else 0)
    ensures forall c :: c in r.issued ==> c == FetchRole(session.value.user.id)
  {
    var next := Snapshot(session, UserOf(session), s.userRole);
    if session.Some? then Reaction(next, [FetchRole(session.value.user.id)])
    else Reaction(next, [])
  }

  /** A notification from the auth-change listener. */
  function OnAuthStateChange(s: Snapshot, session: Option<Session>): (r: Reaction)
    ensures r.snapshot.session == session && UserTracksSession(r.snapshot)
    ensures session.None? ==> r.snapshot.userRole.None?
    ensures session.Some? ==> r.snapshot.userRole == s.userRole
    ensures |r.issued| == (if session.Some? then 1 else 0)
    ensures forall c :: c in r.issued ==> c == FetchRole(session.value.user.id)
  {
    if session.Some? then
      Reaction(Snapshot(session, UserOf(session), s.userRole), [FetchRole(session.value.user.id)])
    else
      Reaction(Snapshot(None, None, None), [])
  }

  /** A role lookup completing. The result is applied whatever the current user is. */
  function OnRoleLookedUp(s: Snapshot, response: RoleResponse): (r: Snapshot)
    ensures r.session == s.session && r.user == s.user
    ensures response.RoleError? ==> r.userRole == s.userRole
    ensures response.RoleRow? ==> r.userRole == Some(response.role)
  {
    match response
    case RoleError(_) => s
    case RoleRow(role) => s.(userRole := Some(role))
  }

  /** The provider's `signOut`: it only asks the backend, the snapshot stays as it is. */
  function SignOut(s: Snapshot): (r: Reaction)
    ensures r.snapshot == s
    ensures r.issued == [SignOutRequest]
  {
    Reaction(s, [SignOutRequest])
  }

  /** An event reaching the provider, in the order the event loop delivers them. */
  datatype AuthEvent =
    | SessionChecked(session: Option<Session>)
    | AuthStateChanged(kind: string, session: Option<Session>)
    | RoleLookedUp(userId: string, response: RoleResponse)
    | SignOutInvoked
    | Teardown

  /** The provider: its snapshot, whether it is still mounted, and every backend call made so far. */
  datatype Provider = Provider(snapshot: Snapshot, mounted: bool, calls: seq<BackendCall>)

  /** The provider right after mounting: all-null state, the session check and the listener requested. */
  const Mounted := Provider(AllNull, true, [GetSession, Subscribe])

  function Apply(p: Provider, r: Reaction): Provider
  {
    Provider(r.snapshot, p.mounted, p.calls + r.issued)
  }

  /** The provider after one event. Once torn down, the snapshot no longer changes: only the
      listener is gone, so an initial check that resolves late still starts its role query, while
      every state update it or a lookup would make lands on an unmounted component. */
  function Step(p: Provider, e: AuthEvent): (r: Provider)
    ensures UserTracksSession(p.snapshot) ==> UserTracksSession(r.snapshot)
    ensures p.calls <= r.calls
    ensures !p.mounted ==> r.snapshot == p.snapshot
    ensures !p.mounted && e.SessionChecked? && e.session.Some? ==>
      r.calls == p.calls + [FetchRole(e.session.value.user.id)]
    ensures !p.mounted && !(e.SessionChecked? && e.session.Some?) ==> r == p
    ensures r.mounted <==> p.mounted && !e.Teardown?
  {
    if !p.mounted then
      match e
      case SessionChecked(Some(session)) => p.(calls := p.calls + [FetchRole(session.user.id)])
      case _ => p
    else
      match e
      case SessionChecked(session) => Apply(p, OnSessionChecked(p.snapshot, session))
      case AuthStateChanged(_, session) => Apply(p, OnAuthStateChange(p.snapshot, session))
      case RoleLookedUp(_, response) => p.(snapshot := OnRoleLookedUp(p.snapshot, response))
      case SignOutInvoked => Apply(p, SignOut(p.snapshot))
      case Teardown => Provider(p.snapshot, false, p.calls + [Unsubscribe])
  }

  /** The provider after a stream of events. */
  function Run(events: seq<AuthEvent>): (r: Provider)
    ensures UserTracksSession(r.snapshot)
    ensures r.mounted <==> forall i :: 0 <= i < |events| ==> !events[i].Teardown?
  {
    if events == [] then Mounted
    else Step(Run(events[..|events| - 1]), events[|events| - 1])
  }

  /** Teardown releases the one listener registered at mount: the session check and the
      subscription are requested exactly once, and the unsubscribe happens once, exactly when
      the provider has been torn down. */
  lemma {:induction false} ListenerLifecycle(events: seq<AuthEvent>)
    ensures multiset(Run(events).calls)[GetSession] == 1
    ensures multiset(Run(events).calls)[Subscribe] == 1
    ensures multiset(Run(events).calls)[Unsubscribe] == (if Run(events).mounted then 0 else 1)
  {
    if events != [] {
      var prefix := events[..|events| - 1];
      ListenerLifecycle(prefix);
      StepListenerCalls(Run(prefix), events[|events| - 1]);
    }
  }

  /** One step adds no session check and no subscription, and adds an unsubscribe only at teardown. */
  lemma StepListenerCalls(p: Provider, e: AuthEvent)
    ensures multiset(Step(p, e).calls)[GetSession] == multiset(p.calls)[GetSession]
    ensures multiset(Step(p, e).calls)[Subscribe] == multiset(p.calls)[Subscribe]
    ensures multiset(Step(p, e).calls)[Unsubscribe]
         == multiset(p.calls)[Unsubscribe] + (if p.mounted && e.Teardown? then 1 else 0)
  {
  }

  /** A role in the snapshot always comes from some delivered lookup result with that role. */
  lemma {:induction false} RoleComesFromLookup(events: seq<AuthEvent>)
    ensures Run(events).snapshot.userRole.Some? ==>
      exists i :: 0 <= i < |events| && events[i].RoleLookedUp?
        && events[i].response == RoleRow(Run(events).snapshot.userRole.value)
  {
    if events != [] {
      var prefix := events[..|events| - 1];
      RoleComesFromLookup(prefix);
      var role := Run(events).snapshot.userRole;
      if role.Some? && role == Run(prefix).snapshot.userRole {
        var i :| 0 <= i < |prefix| && prefix[i].RoleLookedUp? && prefix[i].response == RoleRow(role.value);
        assert events[i] == prefix[i];
      }
    }
  }

  /** The race the provider leaves open: a lookup started for a signed-in user that completes
      after the sign-out notification sets a role while no one is signed in. */
  lemma LateLookupSetsRoleAfterSignOut(history: seq<AuthEvent>, session: Session, role: AppRole,
                                       signIn: string, signOut: string)
    requires forall i :: 0 <= i < |history| ==> !history[i].Teardown?
    ensures var signedIn := history + [AuthStateChanged(signIn, Some(session))];
      && FetchRole(session.user.id) in Run(signedIn).calls
      && var signedOut := signedIn + [AuthStateChanged(signOut, None)];
      && Run(signedOut).snapshot == AllNull
      && Run(signedOut + [RoleLookedUp(session.user.id, RoleRow(role))]).snapshot
         == Snapshot(None, None, Some(role))
  {
  }

  /** A stream the provider can actually see: every lookup answer is for a query it already sent. */
  predicate Realizable(events: seq<AuthEvent>)
  {
    forall i :: 0 <= i < |events| && events[i].RoleLookedUp? ==>
      FetchRole(events[i].userId) in Run(events[..i]).calls
  }

  /** Consequently a realizable stream leaves the snapshot holding a role without a user. */
  lemma RoleWithoutUserIsReachable()
    ensures exists events ::
              Realizable(events) && Run(events).snapshot.userRole.Some? && Run(events).snapshot.user.None?
  {
    var session := Session("token", User("u"));
    var e1 := [AuthStateChanged("SIGNED_IN", Some(session))];
    var e2 := e1 + [AuthStateChanged("SIGNED_OUT", None)];
    var events := e2 + [RoleLookedUp("u", RoleRow(ClientRole))];
    assert e1[..0] == [] && e2[..1] == e1 && events[..2] == e2;
    assert Run(e1).calls == [GetSession, Subscribe, FetchRole("u")] && Run(e1).mounted;
    assert Run(e2).calls == Run(e1).calls && Run(e2).snapshot == AllNull && Run(e2).mounted;
    assert Run(events).snapshot == Snapshot(None, None, Some(ClientRole));
    forall i | 0 <= i < |events| && events[i].RoleLookedUp?
      ensures FetchRole(events[i].userId) in Run(events[..i]).calls
    {
      assert i == 2;
    }
  }

  /** Teardown does not cancel the initial check: one that resolves afterwards with a session
      still sends the role query for its user, and the snapshot stays as teardown left it. */
  lemma LateInitialCheckStillQueries(history: seq<AuthEvent>, session: Session)
    requires !Run(history).mounted
    ensures Run(history + [SessionChecked(Some(session))]).calls
         == Run(history).calls + [FetchRole(session.user.id)]
    ensures Run(history + [SessionChecked(Some(session))]).snapshot == Run(history).snapshot
  {
  }

  /** Two lookups in flight, for user A then user B: when A's answer lands last, the snapshot
      shows user B with A's role. */
  lemma SupersededLookupWins(history: seq<AuthEvent>, a: Session, b: Session, roleA: AppRole, roleB: AppRole,
                             kindA: string, kindB: string)
    requires forall i :: 0 <= i < |history| ==> !history[i].Teardown?
    ensures var events := history + [AuthStateChanged(kindA, Some(a)), AuthStateChanged(kindB, Some(b)),
                                     RoleLookedUp(b.user.id, RoleRow(roleB)),
                                     RoleLookedUp(a.user.id, RoleRow(roleA))];
      Run(events).snapshot == Snapshot(Some(b), Some(b.user), Some(roleA))
  {
    var e1 := history + [AuthStateChanged(kindA, Some(a))];
    var e2 := e1 + [AuthStateChanged(kindB, Some(b))];
    var e3 := e2 + [RoleLookedUp(b.user.id, RoleRow(roleB))];
    var e4 := e3 + [RoleLookedUp(a.user.id, RoleRow(roleA))];
    assert e1[..|e1| - 1] == history;
    assert e2[..|e2| - 1] == e1;
    assert e3[..|e3| - 1] == e2;
    assert e4[..|e4| - 1] == e3;
    assert Run(history).mounted;
    assert Run(e2).snapshot.session == Some(b) && Run(e2).mounted;
    assert Run(e3).snapshot == Snapshot(Some(b), Some(b.user), Some(roleB)) && Run(e3).mounted;
    assert e4 == history + [AuthStateChanged(kindA, Some(a)), AuthStateChanged(kindB, Some(b)),
                            RoleLookedUp(b.user.id, RoleRow(roleB)), RoleLookedUp(a.user.id, RoleRow(roleA))];
  }

  /** The value `useAuth` reads: its snapshot, and the backend calls its `signOut` makes. */
  datatype ContextValue = ContextValue(snapshot: Snapshot, signOutCalls: seq<BackendCall>)

  /** What a component reads, inside a mounted provider or outside any provider. */
  function UseAuth(provider: Option<Provider>): (v: ContextValue)
    ensures provider.None? ==> v.snapshot == AllNull && v.signOutCalls == []
    ensures provider.Some? ==> v.snapshot == provider.value.snapshot && v.signOutCalls == [SignOutRequest]
  {
    match provider
    case None => ContextValue(AllNull, [])
    case Some(p) => ContextValue(p.snapshot, SignOut(p.snapshot).issued)
  }

  /** Outside a provider and in a freshly mounted one, every component reads the same all-null snapshot. */
  lemma DefaultMatchesFreshProvider()
    ensures UseAuth(None).snapshot == UseAuth(Some(Run([]))).snapshot == AllNull
  {
  }
}
