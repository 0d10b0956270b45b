/** The AuthToken custom resource and its controller's decision logic: which
    domain action an observed token calls for, the status each action writes
    back, and when the controller runtime looks at the token again. The
    Kubernetes API is reduced to one fact per call, whether the status patch
    was accepted. */
module AuthTokens {
  import opened Base

  datatype AuthTokenStatus = AuthTokenStatus(emitted: bool, secret: Option<string>)

  datatype AuthTokenSpec = AuthTokenSpec(issuer: string, expiration: Option<U64>, viewed: bool, revoked: bool)

  /** The resource as the controller observes it: the metadata it reads
      (namespace, deletion timestamp), the spec and the optional status. */
  datatype AuthToken = AuthToken(
    name: string,
    namespace: Option<string>,
    deletionTimestamp: Option<string>,
    spec: AuthTokenSpec,
    status: Option<AuthTokenStatus>)

  datatype DomainAction = GenerateToken | ForgetToken | AttemptCleanup | NoOp

  /** What the controller runtime does with the resource afterwards. */
  datatype Action = AwaitChange | RequeueAfter(seconds: nat)

  datatype ReconcileError =
    | UserInputError  // the agent could not be built: the resource has no namespace
    | KubeError       // the API server refused the status patch

  datatype Outcome = Done(action: Action) | Failed(error: ReconcileError)

  datatype Reconciled = Reconciled(outcome: Outcome, token: AuthToken)

  /** The secret `GenerateToken` writes: a fixed placeholder, not yet a real token. */
  const PLACEHOLDER_SECRET: string := "something"

  const CLEANUP_REQUEUE_SECS: nat := 10
  const ERROR_REQUEUE_SECS: nat := 5

  /** The status written by `GenerateToken`: emitted, secret present. */
  const GENERATED: AuthTokenStatus := AuthTokenStatus(true, Some(PLACEHOLDER_SECRET))

  /** The status written by `ForgetToken`: still emitted, secret dropped. */
  const FORGOTTEN: AuthTokenStatus := AuthTokenStatus(true, None)

  /** The checks run in order: deletion wins over everything, a token never
      emitted is generated, an emitted token whose secret was viewed
      forgets it, and anything else needs nothing. */
  function DetermineAction(t: AuthToken): (a: DomainAction)
    ensures a == AttemptCleanup <==> t.deletionTimestamp.Some?
    ensures a == GenerateToken <==>
              t.deletionTimestamp.None? && (t.status.None? || !t.status.value.emitted)
    ensures a == ForgetToken <==>
              && t.deletionTimestamp.None?
              && t.status.Some? && t.status.value.emitted
              && t.spec.viewed && t.status.value.secret.Some?
    ensures a == NoOp <==>
              && t.deletionTimestamp.None?
              && t.status.Some? && t.status.value.emitted
              && !(t.spec.viewed && t.status.value.secret.Some?)
  {
    if t.deletionTimestamp.Some? then AttemptCleanup
    else if t.status.None? then GenerateToken
    else if !t.status.value.emitted then GenerateToken
    else if t.spec.viewed && t.status.value.secret.Some? then ForgetToken
    else NoOp
  }

  /** A merge patch of the whole status: the serialised `None` secret is a
      JSON null, which removes the field, so the stored status becomes
      exactly the written one. */
  function PatchStatus(t: AuthToken, status: AuthTokenStatus): (t': AuthToken)
    ensures t'.status == Some(status)
    ensures t' == t.(status := t'.status)
  {
    t.(status := Some(status))
  }

  /** One reconcile of an observed token. `accepted` is the API server's
      answer to the status patch, when one is sent. A token without a
      namespace fails before any action is taken; a refused patch fails and
      leaves the token as it was. */
  function Reconcile(t: AuthToken, accepted: bool): (r: Reconciled)
    ensures r.token == t.(status := r.token.status)
    ensures t.namespace.None? ==> r == Reconciled(Failed(UserInputError), t)
    ensures r.outcome.Failed? ==> r.token == t
    ensures r.outcome.Failed? <==>
              t.namespace.None? || (!accepted && DetermineAction(t) in {GenerateToken, ForgetToken})
    ensures r.outcome == Failed(KubeError) <==>
              t.namespace.Some? && !accepted && DetermineAction(t) in {GenerateToken, ForgetToken}
    ensures r.outcome.Done? ==>
              && (r.outcome.action.RequeueAfter? <==> DetermineAction(t) == AttemptCleanup)
              && (r.outcome.action.RequeueAfter? ==> r.outcome.action.seconds == CLEANUP_REQUEUE_SECS)
              && (DetermineAction(t) == GenerateToken ==>
                    r.token.status == Some(AuthTokenStatus(true, Some(PLACEHOLDER_SECRET))))
              && (DetermineAction(t) == ForgetToken ==> r.token.status == Some(AuthTokenStatus(true, None)))
              && (DetermineAction(t) in {AttemptCleanup, NoOp} ==> r.token == t)
  {
    var action := DetermineAction(t);
    if t.namespace.None? then Reconciled(Failed(UserInputError), t)
    else
      match action
      case GenerateToken =>
        if accepted then Reconciled(Done(AwaitChange), PatchStatus(t, GENERATED))
        else Reconciled(Failed(KubeError), t)
      case ForgetToken =>
        if accepted then Reconciled(Done(AwaitChange), PatchStatus(t, FORGOTTEN))
        else Reconciled(Failed(KubeError), t)
      case AttemptCleanup => Reconciled(Done(RequeueAfter(CLEANUP_REQUEUE_SECS)), t)
      case NoOp => Reconciled(Done(AwaitChange), t)
  }

  /** `on_error`: every failed reconcile is retried after five seconds,
      whatever the error, and never left to wait for a change. */
  function OnError(e: ReconcileError): (a: Action)
    ensures a.RequeueAfter? && a.seconds == ERROR_REQUEUE_SECS
  {
    RequeueAfter(ERROR_REQUEUE_SECS)
  }

  /** What the controller runtime schedules after one reconcile: the
      returned action, or the error policy's. It waits for a change unless
      the reconcile failed (retry after 5 s) or the token is being deleted
      (retry after 10 s). */
  function Schedule(t: AuthToken, accepted: bool): (a: Action)
    ensures a == RequeueAfter(ERROR_REQUEUE_SECS) <==> Reconcile(t, accepted).outcome.Failed?
    ensures a == RequeueAfter(CLEANUP_REQUEUE_SECS) <==>
              t.namespace.Some? && DetermineAction(t) == AttemptCleanup
    ensures a == AwaitChange <==>
              t.namespace.Some? && (DetermineAction(t) == NoOp || (accepted && DetermineAction(t) in {GenerateToken, ForgetToken}))
  {
    match Reconcile(t, accepted).outcome
    case Done(action) => action
    case Failed(e) => OnError(e)
  }

  // ------------------------------------------------------------ the cycle

  /** After the forgotten status is written, and while no deletion is
      requested, the controller has nothing more to do. */
  lemma ForgottenIsFixpoint(t: AuthToken)
    requires t.deletionTimestamp.None?
    ensures DetermineAction(PatchStatus(t, FORGOTTEN)) == NoOp
  {
  }

  /** After the generated status is written, the next action depends only on
      whether the secret has been viewed. */
  lemma AfterGenerate(t: AuthToken)
    requires t.deletionTimestamp.None?
    ensures DetermineAction(PatchStatus(t, GENERATED)) == (if t.spec.viewed then ForgetToken else NoOp)
  {
  }

  /** A `NoOp` reconcile changes nothing, so it repeats for as long as the
      resource is unchanged. */
  lemma NoOpIsStable(t: AuthToken, accepted: bool)
    requires DetermineAction(t) == NoOp
    ensures Reconcile(t, accepted).token == t
    ensures DetermineAction(Reconcile(t, accepted).token) == NoOp
  {
  }

  /** A token being deleted is requeued every ten seconds and never changed:
      nothing yet removes it. */
  lemma CleanupOnlyRequeues(t: AuthToken, accepted: bool)
    requires t.deletionTimestamp.Some? && t.namespace.Some?
    ensures Reconcile(t, accepted) == Reconciled(Done(RequeueAfter(CLEANUP_REQUEUE_SECS)), t)
    ensures DetermineAction(Reconcile(t, accepted).token) == AttemptCleanup
  {
  }

  /** While patches are accepted and nobody edits the resource, a live token
      with a namespace settles within two reconciles: generate, then forget
      once viewed, then nothing. */
  lemma ConvergesInTwoSteps(t: AuthToken)
    requires t.deletionTimestamp.None? && t.namespace.Some?
    ensures var t1 := Reconcile(t, true).token;
            var t2 := Reconcile(t1, true).token;
            && DetermineAction(t2) == NoOp
            && t2.spec == t.spec
            && t2.status.Some? && t2.status.value.emitted
  {
    var t1 := Reconcile(t, true).token;
    match DetermineAction(t)
    case GenerateToken =>
      AfterGenerate(t);
      if t.spec.viewed {
        ForgottenIsFixpoint(t1);
      }
    case ForgetToken =>
      ForgottenIsFixpoint(t);
    case NoOp =>
      NoOpIsStable(t, true);
  }

  /** A refused patch is retried after five seconds on an unchanged token,
      which calls for the same action again. */
  lemma RefusedPatchRetries(t: AuthToken)
    requires t.namespace.Some? && DetermineAction(t) in {GenerateToken, ForgetToken}
    ensures Schedule(t, false) == RequeueAfter(ERROR_REQUEUE_SECS)
    ensures DetermineAction(Reconcile(t, false).token) == DetermineAction(t)
  {
  }
}
