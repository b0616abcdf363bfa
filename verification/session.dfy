/** The team-id session: the provider that mirrors the id into local
    storage (src/context/TeamIdContext.tsx), the login form that stores a
    trimmed id (src/pages/LoginPage.tsx) and the route guard that sends
    visitors without an id to the login page (src/components/ProtectedRoute.tsx).
    Local storage is a map from keys to strings. */
module Session {
  import opened Common
  import opened Text

  const StorageKey: string := "teamId"

  datatype SessionState = SessionState(teamId: Option<string>, storage: map<string, string>)

  /** The stored id, as `localStorage.getItem` returns it. */
  function Stored(storage: map<string, string>): Option<string> {
    if StorageKey in storage then Some(storage[StorageKey]) else None
  }

  /** State and storage tell the same story. */
  predicate Agrees(s: SessionState) {
    s.teamId == Stored(s.storage)
  }

  /** The provider starts from the stored id, or null. */
  function Initial(storage: map<string, string>): (s: SessionState)
    ensures s.storage == storage
    ensures s.teamId.Some? <==> StorageKey in storage
    ensures s.teamId.Some? ==> s.teamId.value == storage[StorageKey]
  {
    SessionState(Stored(storage), storage)
  }

  function SetTeamId(s: SessionState, id: string): (r: SessionState)
    ensures r.teamId == Some(id)
    ensures StorageKey in r.storage && r.storage[StorageKey] == id
    ensures forall k :: k != StorageKey ==> (k in r.storage <==> k in s.storage)
    ensures forall k :: k != StorageKey && k in s.storage ==> r.storage[k] == s.storage[k]
  {
    SessionState(Some(id), s.storage[StorageKey := id])
  }

  function ClearTeamId(s: SessionState): (r: SessionState)
    ensures r.teamId.None? && StorageKey !in r.storage
    ensures forall k :: k != StorageKey ==> (k in r.storage <==> k in s.storage)
    ensures forall k :: k != StorageKey && k in s.storage ==> r.storage[k] == s.storage[k]
  {
    SessionState(None, s.storage - {StorageKey})
  }

  datatype SessionOp = Set(id: string) | Clear

  function Apply(s: SessionState, op: SessionOp): SessionState {
    match op
    case Set(id) => SetTeamId(s, id)
    case Clear => ClearTeamId(s)
  }

  function ApplyAll(s: SessionState, ops: seq<SessionOp>): SessionState
    decreases |ops|
  {
    if |ops| == 0 then s else ApplyAll(Apply(s, ops[0]), ops[1..])
  }

  /** State and storage agree from the start and after every operation. */
  lemma {:induction false} AlwaysAgrees(storage: map<string, string>, ops: seq<SessionOp>)
    ensures Agrees(ApplyAll(Initial(storage), ops))
  {
    AgreementKept(Initial(storage), ops);
  }

  lemma {:induction false} AgreementKept(s: SessionState, ops: seq<SessionOp>)
    requires Agrees(s) || |ops| > 0
    ensures Agrees(ApplyAll(s, ops))
    decreases |ops|
  {
    if |ops| > 0 {
      AgreementKept(Apply(s, ops[0]), ops[1..]);
    }
  }

  /** `useTeamId` outside the provider throws. */
  datatype Lookup = Provided(state: SessionState) | Thrown(message: string)

  function UseTeamId(ctx: Option<SessionState>): (r: Lookup)
    ensures r.Thrown? <==> ctx.None?
    ensures ctx.Some? ==> r == Provided(ctx.value)
  {
    match ctx
    case None => Thrown("useTeamId must be used within TeamIdProvider")
    case Some(s) => Provided(s)
  }

  datatype Navigation = Navigation(to: string, replace: bool)

  /** The login form's submit handler: the trimmed input is stored and the
      app navigates home, replacing the history entry; a blank input does
      nothing. */
  function Submit(s: SessionState, input: string): (r: (SessionState, Option<Navigation>))
    ensures Trim(input) == "" ==> r.0 == s && r.1.None?
    ensures Trim(input) != "" ==> r.0 == SetTeamId(s, Trim(input)) && r.1 == Some(Navigation("/", true))
  {
    var trimmed := Trim(input);
    if trimmed == "" then (s, None) else (SetTeamId(s, trimmed), Some(Navigation("/", true)))
  }

  /** Submitting changes something exactly when the input has a character
      other than white space, and an id stored by the form is non-empty,
      has no surrounding white space and is left alone by trimming. */
  lemma LoginStoresCleanId(s: SessionState, input: string)
    ensures Submit(s, input).1.Some? <==> exists k :: 0 <= k < |input| && !IsJsSpace(input[k])
    ensures Submit(s, input).1.Some? ==>
      var id := Submit(s, input).0.teamId.value;
      && id != "" && !IsJsSpace(id[0]) && !IsJsSpace(id[|id| - 1])
      && Trim(id) == id
  {
    TrimEmpty(input);
    TrimIdempotent(input);
  }

  datatype Route = Redirect(to: string, replace: bool) | Outlet

  /** `!teamId` redirects: both null and the empty string are falsy. */
  function Guard(teamId: Option<string>): (r: Route)
    ensures r.Outlet? <==> teamId.Some? && teamId.value != ""
    ensures r.Redirect? ==> r == Redirect("/login", true)
  {
    if teamId.None? || teamId.value == "" then Redirect("/login", true) else Outlet
  }

  /** After a login that navigated, the guard lets the visitor through;
      after clearing the id, it sends them back to the login page. */
  lemma GuardFollowsSession(s: SessionState, input: string)
    ensures Submit(s, input).1.Some? ==> Guard(Submit(s, input).0.teamId) == Outlet
    ensures Guard(ClearTeamId(s).teamId) == Redirect("/login", true)
  {
  }
}
